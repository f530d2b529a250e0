# CLua bridge — a Dafny model

CLua is a small C++ class that embeds a Lua interpreter in a host program. It
resolves script files against a home directory, loads and runs scripts or
source strings in two phases (load, then protected call) and reports failures
through a replaceable error handler. It registers native glue functions as Lua
globals, each closing over its own name as an upvalue. Glue functions use it to
inspect their arguments, read them with defaults and push results.

This project models that bridge as an immutable state and pure transitions:

- `State` (module `CLua`) holds the script home (a nullable C string), the
  globals the bridge installed (`map<string, Binding>`, a binding being a
  native function plus its string upvalue), the current error handler
  (nullable), the log of every message delivered to a handler, and the stack of
  the glue call in progress.
- The Lua engine enters only as parameters. These are the `Status` (`Ok` or
  `Err(message)`) of the load step and of the run step, and, for the
  argument getters, the library's conversion of a present argument
  (`Converted(v)` or `Raised(message)`).
- Memory the C++ code writes into before reading is also a parameter. This
  covers the fresh 11-character home buffer and the 1024-character path buffer
  on the stack. The contracts hold whatever that memory held.
- `CStrings` models `strlen`, `strncpy` and `strncat` on fixed-length character
  buffers. Each `char` of a model string is one C `char`, that is one byte, so
  every length, bound and buffer size counts bytes. A character that UTF-8
  encodes in several bytes is several model chars: `"./scrïpts/"` is an
  11-char home, which `strncpy` leaves unterminated, and the 1023 cut may fall
  inside such a character. On that basis, `PathBuffer` is proved to yield the home followed by
  the file name, cut at 1023 characters, and `SetHome` is proved to store
  exactly its argument.
- `LuaApi` holds the slice of the Lua C API the bridge relies on. This is the
  value kinds, the `lua_type` tags, which stack indices are acceptable,
  `lua_isnoneornil`, `lua_toboolean`, and `lua_pushstring` pushing nil for a
  null pointer.
- `CLuaTypes` mirrors the header. It holds the five `LuaArgType` categories,
  native function pointers, the `luaDef` entry with its null-name terminator,
  the built-in `DebugGlue` list and error handlers.
- `CLuaProperties` relates operations to each other: push then read back,
  getters against the type query, last-write-wins, the terminator and what a
  failed run delivers.

The code's quirks:

- `SetHome` sizes its copy from the default `"./scripts/"`, so a home of 11 or
  more characters leaves the buffer unterminated. `SetHome` requires a shorter
  home, and `LongHomeUnterminated` shows why.
- An absent argument is classified `ArgTypeUnknown`, not `ArgTypeNil`.
- `RunString` reports twice on failure: the formatted error, then the command.
- `ReportError` does not check for a null handler, so it requires one. Its
  message is a `const char*`, so it must be a C string.
- `RunScript` requires a non-null home, because it copies from the home
  without checking it.

The getters for strings, numbers and integers go through `luaL_opt*`. These
raise a Lua error for a present argument they cannot convert, so the model
returns `Raised` in that case; only `GetBoolArgument` is total.

The error text and every message a handler receives are `const char*`. `%s`
stops at the first NUL of the interpreter's error text, so a message carries
only that part (`CPrefix`).

## Model

| member | source | states |
|---|---|---|
| `CLua.SetHome` | cLua.cpp:77-92 | The old home is dropped. A null home stays null. A home shorter than the 11-character buffer is stored exactly, whatever the fresh buffer held. Nothing else changes. |
| `CLua.LongHomeUnterminated` | cLua.cpp:85-89 | A home of 11 or more characters fills the whole `strlen(default)+1` buffer and leaves no terminator in it. |
| `CLuaProperties.HomeRoundTrip` | cLua.h:136-142 | `GetHome` returns what the last `SetHome` stored, possibly null. A second `SetHome` erases the first. |
| `CLua.ScriptPath` | cLua.cpp:112-115 | The script path has at most 1023 characters and is a prefix of home ++ file name. It equals home ++ file name when that fits, and its length is min(\|home\| + \|file name\|, 1023). |
| `CLua.PathBuffer` | cLua.cpp:113-115 | `strncpy` of the home then `strncat` of the file name into the 1024-character buffer leaves a terminated C string equal to `ScriptPath`, for any prior buffer contents. |
| `CLuaProperties.PathIgnoresFrame` | cLua.cpp:113-115 | The built path does not depend on the uninitialised stack buffer. |
| `CStrings.StrNCat` | cLua.cpp:115 | `strncat` appends at most n characters of the source after the existing C string and terminates it. |
| `CStrings.StrLen` | cLua.cpp:115 | `strlen` of a terminated buffer is the position of its first terminator: that position holds NUL and none before it does. |
| `CStrings.StrNCpy` | cLua.cpp:88 | `strncpy` with bound n leaves a buffer of the same length whose positions from n on are untouched. What it writes below n is stated by `StrNCpyShort` (the source, then NUL padding up to n) and `StrNCpyLong` (the first n source chars). |
| `CStrings.StrNCpyShort` | cLua.cpp:88 | `strncpy` of a source shorter than the bound leaves exactly that source as the C string, and every position from the source's end up to the bound holds NUL. |
| `CStrings.StrNCpyLong` | cLua.cpp:88 | `strncpy` of a source at least as long as the bound fills the bound with its characters and no terminator. |
| `CLua.RunScript` | cLua.cpp:110-141 | Returns true iff load and run both succeed, and only the log can change. Success, or no handler, delivers nothing. A load failure delivers one "Script Load" message with the path and the load error up to its first NUL, whatever the run status. A run failure after a good load delivers one "Script Run" message. |
| `CLua.RunString` | cLua.cpp:143-170 | Returns true iff load and run both succeed, and only the log can change. A failure with a handler delivers exactly two messages in order. The first is the "String Load"/"String Run" text with the engine's error up to its first NUL; the second is the command itself. With no handler it delivers nothing and still returns false. |
| `CLuaProperties.LoadFailureSkipsExecution` | cLua.cpp:117-128 | After a load failure the run status has no effect on either entry point: execution is never attempted. |
| `CLuaProperties.DeliveryCounts` | cLua.cpp:117-168 | A run delivers one message (`RunScript`) or two (`RunString`) exactly when it fails with a handler set, and none otherwise. |
| `CLuaProperties.ScriptErrorTextMentions` | cLua.cpp:122-133 | The script error text starts with its phase label. It contains the path and the engine's error text up to its first NUL, which is all of it when it has no NUL. |
| `CLuaProperties.StringErrorTextMentions` | cLua.cpp:150-162 | The string error text starts with its phase label. It contains the engine's error text up to its first NUL, which is all of it when it has no NUL. |
| `CLuaProperties.ScriptPhasesDiffer` | cLua.cpp:122-133 | A script load error never starts with the run label, nor a run error with the load label. |
| `CLuaProperties.StringPhasesDiffer` | cLua.cpp:150-162 | A string load error never starts with the run label, nor a run error with the load label. |
| `CStrings.CPrefix` | cLua.cpp:122 | What `%s` prints of a character sequence is a NUL-free prefix of it that stops just before its first NUL. |
| `CLuaProperties.ErrorTextCutAtNul` | cLua.cpp:150 | For every NUL-free `x` and any `y`, `%s` prints the error text `x ++ NUL ++ y` as `x`: all from the first NUL on is dropped. The same `%s` formats the error at lines 122, 133 and 162. |
| `CLua.ErrorTextsAreCStrings` | cLua.cpp:121-123 | The formatted script and string error messages contain no NUL, given a path without one. |
| `CLua.AddFunction` | cLua.cpp:172-182 | Binds the name to the function with the name itself as upvalue, replacing any earlier binding. Adds no other key and leaves every other global unchanged. Returns true. |
| `CLuaProperties.LastWriteWins` | cLua.cpp:177-179 | Registering a name twice equals registering only the second function. |
| `CLua.AddEach` | cLua.cpp:186-189 | Folding single-name registration over entries leaves each named key bound to the last entry with that name, with the name as upvalue. Other keys are untouched. |
| `CLua.AddFunctions` | cLua.cpp:184-191 | The loop registers the entries before the first null name, in order, which equals folding `AddFunction` over that prefix. Returns true. |
| `CLuaProperties.RegisterListIgnoresTail` | cLua.cpp:186 | Entries after the terminator never affect the registered globals. |
| `CLuaProperties.RegisteredEntryReachable` | cLua.cpp:184-191 | An entry before the terminator that no later entry renames ends up bound under its name to its own function, with its name as upvalue. |
| `CLuaProperties.LastEntryWins` | cLua.cpp:186-189 | Among entries with one name, the one with no later namesake is the one that remains. |
| `CLuaTypes.TerminatorIndex` | cLua.h:26-31 | A `luaDef` list ends at its first entry with a null name; every earlier entry has a name. |
| `CLuaTypes.TerminatorIndexIgnoresTail` | cLua.cpp:186 | Appending entries after a terminator does not move the end of the list. |
| `CLua.Create` | cLua.cpp:45-75 | After construction the home is `"./scripts/"` and the handler is the default. Log and stack are empty. The globals are exactly `Print` and `print` bound to `Debug_Print` and `Version` bound to `Version`, each with its own name as upvalue. |
| `CLua.SetErrorHandler` | cLua.h:126 | The handler becomes the given one, possibly null, and nothing else changes. |
| `CLua.ReportError` | cLua.cpp:261-264 | With a non-null handler and a C string message, exactly one message is appended to the log, addressed to the current handler. Nothing else changes. |
| `CLuaProperties.HandlerRoundTrip` | cLua.h:124-130 | After `SetErrorHandler(h)`, `ReportError` delivers its message to `h`. |
| `CLua.GetArgumentType` | cLua.cpp:217-239 | Nil, boolean, number and string values map to NIL, BOOL, NUMBER and STRING. Tables, functions, userdata, light userdata, threads and an absent slot all map to UNKNOWN. Each holds in both directions. |
| `CLua.GetBoolArgument` | cLua.cpp:209-215 | An absent or nil slot yields the default. A slot holding false yields false. Any other value yields true. |
| `CLuaProperties.BoolGetterAgreesWithType` | cLua.cpp:209-239 | A slot typed BOOL yields its own value and a NIL slot the default. An absent slot is typed UNKNOWN yet still yields the default. NUMBER and STRING slots read as true. |
| `CLua.GetStringArgument` | cLua.cpp:193-197 | An absent or nil slot yields the default, a C string or null, and leaves the state alone. A present argument yields what the library's conversion yields: an error, or the converted string up to its first NUL, never null. A number that converts is rewritten in place as the resulting string. Every other slot and field is unchanged, and any other read changes nothing. |
| `CLuaProperties.StringReadConvertsNumber` | cLua.cpp:193-197 | After a number argument converts, the same slot is typed STRING where it was NUMBER, and it still reads as true. |
| `CLuaProperties.ReadStringThenPush` | cLua.h:76-103 | What a glue function reads as a string can be pushed straight back, and the top of the stack then holds it. For an absent or nil argument, that is the default, or nil for a null default. |
| `CLua.GetNumberArgument` | cLua.cpp:199-202 | An absent or nil slot yields the default. |
| `CLua.GetIntegerArgument` | cLua.cpp:204-207 | An absent or nil slot yields the default. |
| `CLuaProperties.AbsentArgumentsYieldDeclaredDefaults` | cLua.h:76-98 | With the declared defaults, the getters return null, 0.0, 0 and false for an absent argument. |
| `CLua.PushBool` | cLua.cpp:241-244 | One more stack slot, holding the boolean on top. Every argument slot and every other field is unchanged. |
| `CLua.PushNil` | cLua.cpp:246-249 | One more stack slot, holding nil on top. Nothing else changes. |
| `CLua.PushString` | cLua.cpp:251-254 | For a C string or a null pointer: one more stack slot, holding the string on top, or nil for a null pointer. Nothing else changes. |
| `CLua.PushNumber` | cLua.cpp:256-259 | One more stack slot, holding the number on top. Nothing else changes. |
| `CLuaProperties.PushThenInspect` | cLua.h:100-122 | A pushed value reads back at index -1. Bool is typed BOOL and reads as itself, nil as NIL and the default, number as NUMBER, string as STRING, null string as NIL. |
| `CLuaTypes.ArgTypesAreFive` | cLua.h:34-42 | `LuaArgType` has exactly five members, NIL=0, NUMBER=1, STRING=2, BOOL=3 and UNKNOWN=4, and the C values round-trip. |

## Left out

- The Lua engine: compiling and running chunks (`luaL_loadfile`, `luaL_loadbuffer`, `lua_pcall`) and `luaL_openlibs`. Their results are the `Status` parameters, so calling a registered function from a script is not modelled.
- Globals the engine itself defines or that scripts assign. The `globals` map holds only what the bridge installed; the library's own `print`, which the bridge overwrites, is not represented.
- Stack effects of running: the chunk or error message `luaL_load*` pushes, the results `lua_pcall` leaves with `LUA_MULTRET`, and the error message a failed run leaves on the stack, which the code never pops.
- Non-string error objects. `luaL_checkstring` on a non-string error value would raise outside a protected call; the engine's error is modelled as a string.
- GetStringArgument: a present argument's conversion (`luaL_optstring` coercion or error) is the `convert` parameter, because it is library behaviour that is not visible here. Only the in-place rewrite of a converted number is modelled.
- SetHome: the code frees the old home before it reads the new one, so an argument that aliases the current home (`SetHome(GetHome())`) is read after it is freed. The model takes the home by value and stores it.
- GetNumberArgument: a present argument's conversion is the `convert` parameter, and numbers are opaque 64-bit patterns with no floating-point arithmetic.
- GetIntegerArgument: the `luaL_optinteger` conversion of a present argument and the cast to `int` are inside the `convert` parameter.
- PushBool: the bridge never calls `lua_checkstack`, so a glue call may push at most `LUA_MINSTACK` (20) values beyond its arguments; the model's stack is unbounded.
- PushNil: the bridge never calls `lua_checkstack`, so a glue call may push at most `LUA_MINSTACK` (20) values beyond its arguments; the model's stack is unbounded.
- PushString: the bridge never calls `lua_checkstack`, so a glue call may push at most `LUA_MINSTACK` (20) values beyond its arguments; the model's stack is unbounded.
- PushNumber: the bridge never calls `lua_checkstack`, so a glue call may push at most `LUA_MINSTACK` (20) values beyond its arguments; the model's stack is unbounded.
- Stack indices 0 and pseudo-indices (registry, upvalues) are not acceptable argument indices in the model; glue functions use 1-based positions or negative offsets.
- Console output: `printf` in `Debug_Print`, `Version`, `SetHome` and the default handler. The default handler is the constant `DefaultErrorHandler`.
- Memory management: the `delete`/`delete[]` mismatch, the destructor, `lua_close` and `GetScriptContext`'s raw pointer.
- Message truncation: the 2048-byte `SNPRINTF` buffers and Windows `_snprintf` non-termination. Messages are plain concatenation.
- test/test.cpp, the test program that drives the bridge.
