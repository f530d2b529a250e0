/** Properties that relate several CLua operations: reading back what was
    pushed, how the getters agree with the type query, last-write-wins
    registration, and what a failed run delivers. */
module CLuaProperties {
  import opened Wrappers
  import opened CStrings
  import opened LuaApi
  import opened CLuaTypes
  import opened CLua

  /** `part` occurs somewhere inside `whole`. */
  predicate Occurs(part: string, whole: string) {
    exists i | 0 <= i <= |whole| :: part <= whole[i..]
  }

  /** In a message joined from six parts, the first part is a prefix and the
      third and fifth occur in it. */
  lemma SixParts(a: string, b: string, c: string, d: string, e: string, f: string)
    ensures a <= a + b + c + d + e + f
    ensures Occurs(c, a + b + c + d + e + f)
    ensures Occurs(e, a + b + c + d + e + f)
  {
    var text := a + b + c + d + e + f;
    assert text[|a + b|..] == c + d + e + f;
    assert text[|a + b + c + d|..] == e + f;
  }

  /** In a message joined from four parts, the first part is a prefix and
      the third occurs in it. */
  lemma FourParts(a: string, b: string, c: string, d: string)
    ensures a <= a + b + c + d
    ensures Occurs(c, a + b + c + d)
  {
    assert (a + b + c + d)[|a + b|..] == c + d;
  }

  // ---------------------------------------------------------------------------
  // Home and handler

  /** GetHome returns what the last SetHome stored; an earlier home leaves no
      trace. */
  lemma HomeRoundTrip(s: State, h1: Option<string>, b1: seq<char>, h2: Option<string>, b2: seq<char>)
    requires |b1| == HomeBufferSize && |b2| == HomeBufferSize
    requires h1.Some? ==> IsCString(h1.value) && |h1.value| < HomeBufferSize
    requires h2.Some? ==> IsCString(h2.value) && |h2.value| < HomeBufferSize
    ensures GetHome(SetHome(s, h1, b1)) == h1
    ensures SetHome(SetHome(s, h1, b1), h2, b2) == SetHome(s, h2, b2)
  {
  }

  /** After SetErrorHandler(h), ReportError hands its message to h. */
  lemma HandlerRoundTrip(s: State, h: ErrorHandler, message: string)
    requires IsCString(message)
    ensures ReportError(SetErrorHandler(s, Some(h)), message).log == s.log + [Delivery(h, message)]
  {
  }

  // ---------------------------------------------------------------------------
  // Registration

  /** Registering a name twice leaves only the second function reachable
      under it, still carrying the name as its upvalue. */
  lemma LastWriteWins(s: State, name: string, first: NativeFn, second: NativeFn)
    requires IsCString(name)
    ensures AddFunction(AddFunction(s, name, first).state, name, second).state
         == AddFunction(s, name, second).state
  {
  }

  /** An entry is the last one with its name when no later entry repeats it;
      then the list leaves that entry's function under the name. */
  lemma {:induction false} LastEntryWins(pre: seq<LuaDef>, name: string, f: NativeFn, post: seq<LuaDef>)
    requires forall i | 0 <= i < |post| :: post[i].name != Some(name)
    ensures LastFunc(pre + [LuaDef(Some(name), f)] + post, name) == Some(f)
    decreases |post|
  {
    var defs := pre + [LuaDef(Some(name), f)] + post;
    if post == [] {
      assert defs[|defs| - 1] == LuaDef(Some(name), f);
    } else {
      var shorter := post[..|post| - 1];
      assert defs[..|defs| - 1] == pre + [LuaDef(Some(name), f)] + shorter;
      assert defs[|defs| - 1] == post[|post| - 1];
      LastEntryWins(pre, name, f, shorter);
    }
  }

  /** The list form of AddFunction never looks past its terminator. */
  lemma RegisterListIgnoresTail(s: State, defs: seq<LuaDef>, tail: seq<LuaDef>)
    requires WellFormedList(defs)
    requires forall i | 0 <= i < |tail| && tail[i].name.Some? :: IsCString(tail[i].name.value)
    ensures WellFormedList(defs + tail)
    ensures RegisterList(s, defs + tail) == RegisterList(s, defs)
  {
    TerminatorIndexIgnoresTail(defs, tail);
    var k := TerminatorIndex(defs);
    assert (defs + tail)[..k] == defs[..k];
  }

  /** A registered entry that no later entry before the terminator renames
      is reachable under its name, bound to its own function, with its name
      as upvalue. */
  lemma RegisteredEntryReachable(s: State, defs: seq<LuaDef>, i: nat)
    requires WellFormedList(defs)
    requires i < TerminatorIndex(defs)
    requires forall j | i < j < TerminatorIndex(defs) :: defs[j].name != defs[i].name
    ensures defs[i].name.value in RegisterList(s, defs).globals
    ensures RegisterList(s, defs).globals[defs[i].name.value] == Binding(defs[i].func, defs[i].name.value)
  {
    var k := TerminatorIndex(defs);
    var name := defs[i].name.value;
    var prefix := defs[..k];
    assert prefix == defs[..i] + [LuaDef(Some(name), defs[i].func)] + defs[i + 1..k];
    LastEntryWins(defs[..i], name, defs[i].func, defs[i + 1..k]);
  }

  // ---------------------------------------------------------------------------
  // Arguments and results

  /** A pushed value reads back through the type query and the boolean
      getter at the top of the stack. */
  lemma PushThenInspect(s: State, b: bool, p: Option<string>, x: Float64, d: bool)
    requires p.Some? ==> IsCString(p.value)
    ensures GetArgumentType(PushBool(s, b), -1) == ArgTypeBool
    ensures GetBoolArgument(PushBool(s, b), -1, d) == b
    ensures GetArgumentType(PushNil(s), -1) == ArgTypeNil
    ensures GetBoolArgument(PushNil(s), -1, d) == d
    ensures GetArgumentType(PushNumber(s, x), -1) == ArgTypeNumber
    ensures GetBoolArgument(PushNumber(s, x), -1, d)
    ensures p.Some? ==> GetArgumentType(PushString(s, p), -1) == ArgTypeString
    ensures p.None? ==> GetArgumentType(PushString(s, p), -1) == ArgTypeNil
  {
  }

  /** The boolean getter agrees with the type query: a boolean slot yields its
      value, a nil slot the default, and an absent slot, although its type is
      reported as unknown rather than nil, yields the default too. */
  lemma BoolGetterAgreesWithType(s: State, num: int, d: bool)
    requires Acceptable(s.stack, num)
    ensures GetArgumentType(s, num) == ArgTypeBool ==>
      GetBoolArgument(s, num, d) == Slot(s.stack, num).value.b
    ensures GetArgumentType(s, num) == ArgTypeNil ==> GetBoolArgument(s, num, d) == d
    ensures num > |s.stack| ==>
      GetArgumentType(s, num) == ArgTypeUnknown && GetBoolArgument(s, num, d) == d
    ensures GetArgumentType(s, num) in {ArgTypeNumber, ArgTypeString} ==> GetBoolArgument(s, num, d)
  {
  }

  /** Reading a number argument as a string turns the slot into a string:
      the type query answers STRING afterwards, and the boolean getter still
      reads it as true. */
  lemma StringReadConvertsNumber(
    s: State, num: int, default: Option<string>, convert: LuaValue -> Conversion<string>, x: Float64)
    requires Acceptable(s.stack, num) && Slot(s.stack, num) == Some(Number(x))
    requires default.Some? ==> IsCString(default.value)
    requires convert(Number(x)).Converted?
    ensures var r := GetStringArgument(s, num, default, convert);
      && Acceptable(r.state.stack, num)
      && GetArgumentType(s, num) == ArgTypeNumber
      && GetArgumentType(r.state, num) == ArgTypeString
      && GetBoolArgument(r.state, num, false)
  {
  }

  /** A glue function may push back what it read as a string: the top of
      the stack then holds that string, or nil for a null result. */
  lemma ReadStringThenPush(s: State, num: int, default: Option<string>, convert: LuaValue -> Conversion<string>)
    requires Acceptable(s.stack, num)
    requires default.Some? ==> IsCString(default.value)
    requires GetStringArgument(s, num, default, convert).result.Converted?
    ensures var r := GetStringArgument(s, num, default, convert);
      var pushed := PushString(r.state, r.result.value);
      && Slot(pushed.stack, -1) == Some(StringValue(r.result.value))
      && (IsNoneOrNil(Slot(s.stack, num)) ==> Slot(pushed.stack, -1) == Some(StringValue(default)))
  {
  }

  /** Every getter called with its declared default on an absent argument
      returns that default: null, 0.0, 0 and false. */
  lemma AbsentArgumentsYieldDeclaredDefaults(
    s: State, num: int,
    cs: LuaValue -> Conversion<string>, cn: LuaValue -> Conversion<Float64>, ci: LuaValue -> Conversion<int>)
    requires num > |s.stack|
    ensures GetStringArgument(s, num, DefaultStringArgument, cs) == StringArgument(s, Converted(None))
    ensures GetNumberArgument(s, num, DefaultNumberArgument, cn) == Converted(0)
    ensures GetIntegerArgument(s, num, DefaultIntegerArgument, ci) == Converted(0)
    ensures !GetBoolArgument(s, num, DefaultBoolArgument)
  {
  }

  // ---------------------------------------------------------------------------
  // Runs

  /** The formatted script error starts with its phase label and contains the
      path and what `%s` prints of the interpreter's error text, which is all
      of it when it holds no NUL. */
  lemma ScriptErrorTextMentions(phase: Phase, path: string, error: string)
    ensures ScriptLabel(phase) <= ScriptErrorText(phase, path, error)
    ensures Occurs(path, ScriptErrorText(phase, path, error))
    ensures Occurs(CPrefix(error), ScriptErrorText(phase, path, error))
    ensures IsCString(error) ==> Occurs(error, ScriptErrorText(phase, path, error))
  {
    SixParts(ScriptLabel(phase), "\nScript Name:", path, "\nError Message:", CPrefix(error), "\n");
    if IsCString(error) {
      CPrefixOfCString(error);
    }
  }

  /** A script load error never reads as a run error, nor the reverse: the
      labels differ at position 19. */
  lemma ScriptPhasesDiffer(path: string, error: string)
    ensures !(ScriptLabel(Run) <= ScriptErrorText(Load, path, error))
    ensures !(ScriptLabel(Load) <= ScriptErrorText(Run, path, error))
  {
    var rest := "\nScript Name:" + path + "\nError Message:" + CPrefix(error) + "\n";
    assert ScriptErrorText(Load, path, error) == ScriptLabel(Load) + rest;
    assert ScriptErrorText(Run, path, error) == ScriptLabel(Run) + rest;
    assert ScriptErrorText(Load, path, error)[19] == ScriptLabel(Load)[19];
    assert ScriptErrorText(Run, path, error)[19] == ScriptLabel(Run)[19];
  }

  /** The first message of a failed RunString starts with its phase label and
      contains what `%s` prints of the interpreter's error text. */
  lemma StringErrorTextMentions(phase: Phase, error: string)
    ensures StringLabel(phase) <= StringErrorText(phase, error)
    ensures Occurs(CPrefix(error), StringErrorText(phase, error))
    ensures IsCString(error) ==> Occurs(error, StringErrorText(phase, error))
  {
    FourParts(StringLabel(phase), "\nError Message:", CPrefix(error), "\nString:");
    if IsCString(error) {
      CPrefixOfCString(error);
    }
  }

  /** A string load error never reads as a run error, nor the reverse. */
  lemma StringPhasesDiffer(error: string)
    ensures !(StringLabel(Run) <= StringErrorText(Load, error))
    ensures !(StringLabel(Load) <= StringErrorText(Run, error))
  {
    var rest := "\nError Message:" + CPrefix(error) + "\nString:";
    assert StringErrorText(Load, error) == StringLabel(Load) + rest;
    assert StringErrorText(Run, error) == StringLabel(Run) + rest;
    assert StringErrorText(Load, error)[19] == StringLabel(Load)[19];
    assert StringErrorText(Run, error)[19] == StringLabel(Run)[19];
  }

  /** `%s` prints an error text only up to its first NUL: whatever follows
      that NUL never reaches the handler. */
  lemma ErrorTextCutAtNul(x: string, y: string)
    requires IsCString(x)
    ensures CPrefix(x + [NUL] + y) == x
  {
    var s := x + [NUL] + y;
    assert s[..|x|] == x && s[|x|] == NUL;
    assert CPrefix(s) == s[..|CPrefix(s)|];
    assert forall i | 0 <= i < |x| :: s[i] == x[i];
  }

  /** A failed load is final: the run status plays no part in the outcome. */
  lemma LoadFailureSkipsExecution(
    s: State, fname: string, frame: seq<char>, command: string, e: string, x1: Status, x2: Status)
    requires Valid(s) && s.home.Some? && IsCString(fname) && |frame| == PathBufferSize
    requires IsCString(command)
    ensures RunScript(s, fname, frame, Err(e), x1) == RunScript(s, fname, frame, Err(e), x2)
    ensures RunString(s, command, Err(e), x1) == RunString(s, command, Err(e), x2)
  {
  }

  /** How many messages a run delivers: RunScript one and RunString two on a
      failure with a handler set, none otherwise. */
  lemma DeliveryCounts(
    s: State, fname: string, frame: seq<char>, command: string, load: Status, exec: Status)
    requires Valid(s) && s.home.Some? && IsCString(fname) && |frame| == PathBufferSize
    requires IsCString(command)
    ensures var r := RunScript(s, fname, frame, load, exec);
      |r.state.log| == |s.log| + (if !r.ok && s.handler.Some? then 1 else 0)
    ensures var r := RunString(s, command, load, exec);
      |r.state.log| == |s.log| + (if !r.ok && s.handler.Some? then 2 else 0)
  {
  }

  /** The script path does not depend on what the stack buffer held before. */
  lemma PathIgnoresFrame(home: string, fname: string, f1: seq<char>, f2: seq<char>)
    requires IsCString(home) && |home| < MaxPathLength && IsCString(fname)
    requires |f1| == PathBufferSize && |f2| == PathBufferSize
    ensures CStr(PathBuffer(home, fname, f1)) == CStr(PathBuffer(home, fname, f2))
  {
  }
}
