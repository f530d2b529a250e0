/** The CLua bridge as an immutable state and pure transitions. The Lua engine
    enters only through the load and run statuses passed to `RunScript` and
    `RunString`; indeterminate memory the C++ code writes into (the fresh home
    buffer, the path buffer on the stack) is passed in as well, and every
    contract holds whatever it contains. */
module CLua {
  import opened Wrappers
  import opened CStrings
  import opened LuaApi
  import opened CLuaTypes

  /** A message handed to an error handler. */
  datatype Delivery = Delivery(handler: ErrorHandler, text: string)

  /** What one CLua instance holds: the script home (a nullable C string),
      the global bindings it installed, the current error handler (nullable),
      every message delivered to a handler so far, and the stack of the
      glue-function call in progress. */
  datatype State = State(
    home: Option<string>,
    globals: map<string, Binding>,
    handler: Option<ErrorHandler>,
    log: seq<Delivery>,
    stack: seq<LuaValue>)

  /** A global installed by AddFunction: a C closure over `func` whose one
      upvalue is a string. */
  datatype Binding = Binding(func: NativeFn, upvalue: string)

  /** A state together with the boolean the C++ member returns. */
  datatype Outcome = Outcome(state: State, ok: bool)

  const DefaultScriptHome: string := "./scripts/"

  /** SetHome sizes its copy from the default home, not from its argument. */
  const HomeBufferSize: nat := |DefaultScriptHome| + 1

  const PathBufferSize: nat := 1024

  /** RunScript copies and appends at most this many characters. */
  const MaxPathLength: nat := PathBufferSize - 1

  /** The home, once set, is a C string that fitted the home buffer with its
      terminator. */
  predicate Valid(s: State) {
    s.home.Some? ==> IsCString(s.home.value) && |s.home.value| < HomeBufferSize
  }

  // ---------------------------------------------------------------------------
  // Script home

  /** SetHome: the old home is dropped; a non-null home is copied with strncpy
      into a fresh buffer of HomeBufferSize characters. A home of
      HomeBufferSize characters or more would leave that buffer without a
      terminator (see `LongHomeUnterminated`), so the caller must keep it
      shorter. */
  function SetHome(s: State, home: Option<string>, block: seq<char>): (s': State)
    requires |block| == HomeBufferSize
    requires home.Some? ==> IsCString(home.value) && |home.value| < HomeBufferSize
    ensures Valid(s')
    ensures s'.home == home
    ensures s' == s.(home := s'.home)
  {
    match home
    case None => s.(home := None)
    case Some(h) =>
      var buf := StrNCpy(block, h, HomeBufferSize);
      StrNCpyShort(block, h, HomeBufferSize);
      s.(home := Some(CStr(buf)))
  }

  /** A home of HomeBufferSize characters or more fills the whole home buffer
      and leaves no terminator in it, so reading it back is undefined. */
  lemma LongHomeUnterminated(h: string, block: seq<char>)
    requires |block| == HomeBufferSize && IsCString(h) && |h| >= HomeBufferSize
    ensures !Terminated(StrNCpy(block, h, HomeBufferSize))
  {
  }

  function GetHome(s: State): Option<string> {
    s.home
  }

  // ---------------------------------------------------------------------------
  // Error channel

  function SetErrorHandler(s: State, handler: Option<ErrorHandler>): (s': State)
    ensures s'.handler == handler
    ensures s' == s.(handler := handler)
  {
    s.(handler := handler)
  }

  /** ReportError calls the current handler without checking it, so a handler
      must be set; the message is a `const char*`. */
  function ReportError(s: State, message: string): (s': State)
    requires s.handler.Some? && IsCString(message)
    ensures |s'.log| == |s.log| + 1
    ensures s'.log[..|s.log|] == s.log
    ensures s'.log[|s.log|] == Delivery(s.handler.value, message)
    ensures s' == s.(log := s'.log)
  {
    s.(log := s.log + [Delivery(s.handler.value, message)])
  }

  // ---------------------------------------------------------------------------
  // Registration

  /** AddFunction(name, f): installs a closure over `f` under the global
      `name`, with `name` itself as the closure's upvalue, replacing whatever
      the name held. */
  function AddFunction(s: State, name: string, f: NativeFn): (r: Outcome)
    requires IsCString(name)
    ensures r.ok
    ensures r.state.globals.Keys == s.globals.Keys + {name}
    ensures r.state.globals[name] == Binding(f, name)
    ensures forall n | n in s.globals && n != name :: r.state.globals[n] == s.globals[n]
    ensures r.state == s.(globals := r.state.globals)
  {
    Outcome(s.(globals := s.globals[name := Binding(f, name)]), true)
  }

  /** Every entry of `defs` carries a name that is a C string. */
  predicate AllNamed(defs: seq<LuaDef>) {
    forall i | 0 <= i < |defs| :: defs[i].name.Some? && IsCString(defs[i].name.value)
  }

  /** The function of the last entry named `name`, if any entry is. */
  function LastFunc(defs: seq<LuaDef>, name: string): Option<NativeFn> {
    if defs == [] then None
    else if defs[|defs| - 1].name == Some(name) then Some(defs[|defs| - 1].func)
    else LastFunc(defs[..|defs| - 1], name)
  }

  /** Single-name AddFunction applied to each entry, first to last. */
  function AddEach(s: State, defs: seq<LuaDef>): (r: State)
    requires AllNamed(defs)
    ensures r == s.(globals := r.globals)
    ensures forall n :: LastFunc(defs, n).Some? ==>
      n in r.globals && r.globals[n] == Binding(LastFunc(defs, n).value, n)
    ensures forall n :: LastFunc(defs, n).None? ==>
      (n in r.globals <==> n in s.globals) && (n in s.globals ==> r.globals[n] == s.globals[n])
    decreases |defs|
  {
    if defs == [] then s
    else
      var d := defs[|defs| - 1];
      AddFunction(AddEach(s, defs[..|defs| - 1]), d.name.value, d.func).state
  }

  /** Entries a `luaDef` list may hold: all names are C strings, and a null
      name ends it. */
  predicate WellFormedList(defs: seq<LuaDef>) {
    && HasTerminator(defs)
    && forall i | 0 <= i < |defs| && defs[i].name.Some? :: IsCString(defs[i].name.value)
  }

  /** What the list form of AddFunction leaves: the single-name form folded
      over the entries before the terminator. */
  function RegisterList(s: State, defs: seq<LuaDef>): State
    requires WellFormedList(defs)
  {
    AddEach(s, defs[..TerminatorIndex(defs)])
  }

  /** AddFunction(defs): walks the list until the first null name, registering
      each entry on the way. */
  method AddFunctions(s: State, defs: seq<LuaDef>) returns (s': State, ok: bool)
    requires WellFormedList(defs)
    ensures ok
    ensures s' == RegisterList(s, defs)
  {
    s' := s;
    var i := 0;
    while defs[i].name.Some?
      invariant 0 <= i <= TerminatorIndex(defs)
      invariant AllNamed(defs[..i])
      invariant s' == AddEach(s, defs[..i])
      decreases TerminatorIndex(defs) - i
    {
      var added := AddFunction(s', defs[i].name.value, defs[i].func);
      assert defs[..i + 1][..i] == defs[..i];
      s' := added.state;
      i := i + 1;
    }
    ok := true;
  }

  // ---------------------------------------------------------------------------
  // Construction

  /** The constructor: default home, default handler, the built-in glue. */
  function Create(block: seq<char>): (s: State)
    requires |block| == HomeBufferSize
    ensures Valid(s)
    ensures s.home == Some(DefaultScriptHome)
    ensures s.handler == Some(DefaultErrorHandler)
    ensures s.log == [] && s.stack == []
    ensures s.globals == map[
      "Print" := Binding(DebugPrint, "Print"),
      "print" := Binding(DebugPrint, "print"),
      "Version" := Binding(Version, "Version")]
  {
    var s0 := State(None, map[], None, [], []);
    var s1 := SetHome(s0, Some(DefaultScriptHome), block);
    var s2 := SetErrorHandler(s1, Some(DefaultErrorHandler));
    assert DebugGlue[3].name.None?;
    assert TerminatorIndex(DebugGlue) == 3;
    assert DebugGlue[..3][..2] == DebugGlue[..2];
    assert DebugGlue[..2][..1] == DebugGlue[..1];
    assert DebugGlue[..1][..0] == [];
    var s3 := AddFunction(s2, "Print", DebugPrint).state;
    var s4 := AddFunction(s3, "print", DebugPrint).state;
    var s5 := AddFunction(s4, "Version", Version).state;
    assert AddEach(s2, DebugGlue[..1]) == s3;
    assert AddEach(s2, DebugGlue[..2]) == s4;
    assert AddEach(s2, DebugGlue[..3]) == s5;
    RegisterList(s2, DebugGlue)
  }

  // ---------------------------------------------------------------------------
  // Running scripts

  /** The two phases of a run. */
  datatype Phase = Load | Run

  /** The script path: home followed by the file name, cut after
      MaxPathLength characters. */
  function ScriptPath(home: string, fname: string): (p: string)
    ensures |p| <= MaxPathLength
    ensures p <= home + fname
    ensures |home| + |fname| <= MaxPathLength ==> p == home + fname
    ensures |p| == Min(|home| + |fname|, MaxPathLength)
  {
    var full := home + fname;
    full[..Min(|full|, MaxPathLength)]
  }

  /** RunScript's path buffer: strncpy of the home into the first
      MaxPathLength positions, then strncat of the file name with the room
      left. Whatever the buffer held before, it ends up holding ScriptPath. */
  function PathBuffer(home: string, fname: string, frame: seq<char>): (buf: seq<char>)
    requires IsCString(home) && |home| < MaxPathLength && IsCString(fname)
    requires |frame| == PathBufferSize
    ensures |buf| == PathBufferSize
    ensures Terminated(buf) && CStr(buf) == ScriptPath(home, fname)
  {
    var copied := StrNCpy(frame, home, MaxPathLength);
    StrNCpyShort(frame, home, MaxPathLength);
    var buf := StrNCat(copied, fname, MaxPathLength - StrLen(copied));
    assert CStr(buf) == home + fname[..Min(|fname|, MaxPathLength - |home|)];
    assert (home + fname)[..Min(|home| + |fname|, MaxPathLength)]
      == home + fname[..Min(|fname|, MaxPathLength - |home|)];
    buf
  }

  function ScriptLabel(phase: Phase): string {
    match phase
    case Load => "Lua Error - Script Load"
    case Run => "Lua Error - Script Run"
  }

  function StringLabel(phase: Phase): string {
    match phase
    case Load => "Lua Error - String Load"
    case Run => "Lua Error - String Run"
  }

  /** The message RunScript formats on a failure. The interpreter's error
      text is printed with `%s`, so only its part before any NUL appears. */
  function ScriptErrorText(phase: Phase, path: string, error: string): string {
    ScriptLabel(phase) + "\nScript Name:" + path + "\nError Message:" + CPrefix(error) + "\n"
  }

  /** The first message RunString formats on a failure; the command follows
      as a second message. */
  function StringErrorText(phase: Phase, error: string): string {
    StringLabel(phase) + "\nError Message:" + CPrefix(error) + "\nString:"
  }

  /** Both formatted messages are C strings, given a C string path. */
  lemma ErrorTextsAreCStrings(phase: Phase, path: string, error: string)
    requires IsCString(path)
    ensures IsCString(ScriptErrorText(phase, path, error))
    ensures IsCString(StringErrorText(phase, error))
  {
    var e := CPrefix(error);
    CStringConcat(ScriptLabel(phase), "\nScript Name:");
    CStringConcat(ScriptLabel(phase) + "\nScript Name:", path);
    CStringConcat(ScriptLabel(phase) + "\nScript Name:" + path, "\nError Message:");
    CStringConcat(ScriptLabel(phase) + "\nScript Name:" + path + "\nError Message:", e);
    CStringConcat(ScriptLabel(phase) + "\nScript Name:" + path + "\nError Message:" + e, "\n");
    CStringConcat(StringLabel(phase), "\nError Message:");
    CStringConcat(StringLabel(phase) + "\nError Message:", e);
    CStringConcat(StringLabel(phase) + "\nError Message:" + e, "\nString:");
  }

  /** Delivers `message` when a handler is set; the runs check the handler
      before calling it. */
  function Notify(s: State, message: string): State
    requires IsCString(message)
  {
    if s.handler.Some? then ReportError(s, message) else s
  }

  /** RunScript(fname): builds the path from the home, loads the file and,
      only when that succeeded, runs it. A null home is not allowed: the
      path is copied from it unchecked. */
  function RunScript(s: State, fname: string, frame: seq<char>, load: Status, exec: Status): (r: Outcome)
    requires Valid(s) && s.home.Some? && IsCString(fname)
    requires |frame| == PathBufferSize
    ensures r.ok <==> load.Ok? && exec.Ok?
    ensures r.state == s.(log := r.state.log)
    ensures r.ok || s.handler.None? ==> r.state.log == s.log
    ensures load.Err? && s.handler.Some? ==>
      r.state.log == s.log + [Delivery(s.handler.value,
        ScriptErrorText(Load, ScriptPath(s.home.value, fname), load.message))]
    ensures load.Ok? && exec.Err? && s.handler.Some? ==>
      r.state.log == s.log + [Delivery(s.handler.value,
        ScriptErrorText(Run, ScriptPath(s.home.value, fname), exec.message))]
  {
    var path := CStr(PathBuffer(s.home.value, fname, frame));
    match load
    case Err(e) =>
      ErrorTextsAreCStrings(Load, path, e);
      Outcome(Notify(s, ScriptErrorText(Load, path, e)), false)
    case Ok =>
      match exec
      case Err(e) =>
        ErrorTextsAreCStrings(Run, path, e);
        Outcome(Notify(s, ScriptErrorText(Run, path, e)), false)
      case Ok => Outcome(s, true)
  }

  /** RunString(command): loads the command text and, only when that
      succeeded, runs it. A failure sends two messages: the formatted error,
      then the command itself. */
  function RunString(s: State, command: string, load: Status, exec: Status): (r: Outcome)
    requires IsCString(command)
    ensures r.ok <==> load.Ok? && exec.Ok?
    ensures r.state == s.(log := r.state.log)
    ensures r.ok || s.handler.None? ==> r.state.log == s.log
    ensures load.Err? && s.handler.Some? ==>
      r.state.log == s.log + [Delivery(s.handler.value, StringErrorText(Load, load.message)),
                              Delivery(s.handler.value, command)]
    ensures load.Ok? && exec.Err? && s.handler.Some? ==>
      r.state.log == s.log + [Delivery(s.handler.value, StringErrorText(Run, exec.message)),
                              Delivery(s.handler.value, command)]
  {
    match load
    case Err(e) =>
      ErrorTextsAreCStrings(Load, "", e);
      Outcome(Notify(Notify(s, StringErrorText(Load, e)), command), false)
    case Ok =>
      match exec
      case Err(e) =>
        ErrorTextsAreCStrings(Run, "", e);
        Outcome(Notify(Notify(s, StringErrorText(Run, e)), command), false)
      case Ok => Outcome(s, true)
  }

  // ---------------------------------------------------------------------------
  // Arguments and results of a glue call

  /** GetArgumentType: the switch over lua_type; nil, boolean, number and
      string have a category of their own, every other tag (an absent slot
      included) is unknown. */
  function GetArgumentType(s: State, num: int): (t: LuaArgType)
    requires Acceptable(s.stack, num)
    ensures t == ArgTypeNil <==> Slot(s.stack, num) == Some(Nil)
    ensures t == ArgTypeBool <==> Slot(s.stack, num).Some? && Slot(s.stack, num).value.Boolean?
    ensures t == ArgTypeNumber <==> Slot(s.stack, num).Some? && Slot(s.stack, num).value.Number?
    ensures t == ArgTypeString <==> Slot(s.stack, num).Some? && Slot(s.stack, num).value.Str?
    ensures t == ArgTypeUnknown <==>
      (|| Slot(s.stack, num).None?
       || Slot(s.stack, num).value.Table? || Slot(s.stack, num).value.Function?
       || Slot(s.stack, num).value.Userdata? || Slot(s.stack, num).value.LightUserdata?
       || Slot(s.stack, num).value.Thread?)
  {
    var tag := TypeTag(Slot(s.stack, num));
    if tag == TNil then ArgTypeNil
    else if tag == TBoolean then ArgTypeBool
    else if tag == TNumber then ArgTypeNumber
    else if tag == TString then ArgTypeString
    else ArgTypeUnknown
  }

  /** GetBoolArgument: the default for an absent or nil slot, otherwise Lua's
      truth of the value. */
  function GetBoolArgument(s: State, num: int, default: bool): (b: bool)
    requires Acceptable(s.stack, num)
    ensures Slot(s.stack, num).None? || Slot(s.stack, num) == Some(Nil) ==> b == default
    ensures Slot(s.stack, num) == Some(Boolean(false)) ==> !b
    ensures (&& Slot(s.stack, num).Some?
             && Slot(s.stack, num).value != Nil
             && Slot(s.stack, num).value != Boolean(false)) ==> b
  {
    var slot := Slot(s.stack, num);
    if IsNoneOrNil(slot) then default else ToBoolean(slot.value)
  }

  /** The result of one of the Lua library's optional-argument readers: a
      value, or a Lua error raised for an argument it cannot convert. */
  datatype Conversion<T> = Converted(value: T) | Raised(message: string)

  /** The declared default arguments of the getters. */
  const DefaultStringArgument: Option<string> := None
  const DefaultNumberArgument: Float64 := 0  // the bit pattern of 0.0
  const DefaultIntegerArgument: int := 0
  const DefaultBoolArgument: bool := false

  /** What GetStringArgument returns, with the state it leaves. */
  datatype StringArgument = StringArgument(state: State, result: Conversion<Option<string>>)

  /** GetStringArgument via luaL_optstring. What the library does with a
      present argument is the `convert` parameter; the caller receives the
      converted Lua string as a `const char*`, so only its part before any
      NUL. A number it converts is rewritten in place as that string
      (lua_tolstring does so), so the slot afterwards holds a string. */
  function GetStringArgument(s: State, num: int, default: Option<string>,
                             convert: LuaValue -> Conversion<string>): (r: StringArgument)
    requires Acceptable(s.stack, num)
    requires default.Some? ==> IsCString(default.value)
    ensures IsNoneOrNil(Slot(s.stack, num)) ==> r == StringArgument(s, Converted(default))
    ensures r.result.Converted? && r.result.value.Some? ==> IsCString(r.result.value.value)
    ensures !IsNoneOrNil(Slot(s.stack, num)) ==>
      && (r.result.Converted? <==> convert(Slot(s.stack, num).value).Converted?)
      && (r.result.Converted? ==>
            r.result.value == Some(CPrefix(convert(Slot(s.stack, num).value).value)))
      && (r.result.Raised? ==> r.result == Raised(convert(Slot(s.stack, num).value).message))
    ensures r.state == s.(stack := r.state.stack) && |r.state.stack| == |s.stack|
    ensures Slot(s.stack, num).Some? && Slot(s.stack, num).value.Number? && r.result.Converted? ==>
      && Slot(r.state.stack, num) == Some(Str(convert(Slot(s.stack, num).value).value))
      && forall j | 0 <= j < |s.stack| && j != Position(s.stack, num) :: r.state.stack[j] == s.stack[j]
    ensures !(Slot(s.stack, num).Some? && Slot(s.stack, num).value.Number? && r.result.Converted?) ==>
      r.state == s
  {
    var slot := Slot(s.stack, num);
    if IsNoneOrNil(slot) then StringArgument(s, Converted(default))
    else
      match convert(slot.value)
      case Converted(v) =>
        var stack := if slot.value.Number? then SetSlot(s.stack, num, Str(v)) else s.stack;
        StringArgument(s.(stack := stack), Converted(Some(CPrefix(v))))
      case Raised(m) => StringArgument(s, Raised(m))
  }

  /** GetNumberArgument via luaL_optnumber. */
  function GetNumberArgument(s: State, num: int, default: Float64,
                             convert: LuaValue -> Conversion<Float64>): (r: Conversion<Float64>)
    requires Acceptable(s.stack, num)
    ensures IsNoneOrNil(Slot(s.stack, num)) ==> r == Converted(default)
  {
    var slot := Slot(s.stack, num);
    if IsNoneOrNil(slot) then Converted(default) else convert(slot.value)
  }

  /** GetIntegerArgument via luaL_optinteger; `convert` includes the cast to
      int. */
  function GetIntegerArgument(s: State, num: int, default: int,
                              convert: LuaValue -> Conversion<int>): (r: Conversion<int>)
    requires Acceptable(s.stack, num)
    ensures IsNoneOrNil(Slot(s.stack, num)) ==> r == Converted(default)
  {
    var slot := Slot(s.stack, num);
    if IsNoneOrNil(slot) then Converted(default) else convert(slot.value)
  }

  /** The stack after one value was pushed, read back through stack indices:
      one more slot, the new value on top, every argument where it was. */
  predicate PushedOne(s: State, s': State, v: LuaValue) {
    && s' == s.(stack := s'.stack)
    && |s'.stack| == |s.stack| + 1
    && Slot(s'.stack, -1) == Some(v)
    && Slot(s'.stack, |s.stack| + 1) == Some(v)
    && forall k | 1 <= k <= |s.stack| :: Slot(s'.stack, k) == Slot(s.stack, k)
  }

  function PushBool(s: State, b: bool): (s': State)
    ensures PushedOne(s, s', Boolean(b))
  {
    s.(stack := s.stack + [Boolean(b)])
  }

  function PushNil(s: State): (s': State)
    ensures PushedOne(s, s', Nil)
  {
    s.(stack := s.stack + [Nil])
  }

  /** PushString: lua_pushstring pushes nil for a null pointer. */
  function PushString(s: State, p: Option<string>): (s': State)
    requires p.Some? ==> IsCString(p.value)
    ensures PushedOne(s, s', StringValue(p))
  {
    s.(stack := s.stack + [StringValue(p)])
  }

  function PushNumber(s: State, x: Float64): (s': State)
    ensures PushedOne(s, s', Number(x))
  {
    s.(stack := s.stack + [Number(x)])
  }
}
