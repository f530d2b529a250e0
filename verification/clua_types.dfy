/** The types the bridge's header declares: the argument categories, native
    function pointers, the `luaDef` registration entry and error handlers. */
module CLuaTypes {
  import opened Wrappers

  /** The closed set of argument categories, in declaration order. */
  datatype LuaArgType =
    | ArgTypeNil
    | ArgTypeNumber
    | ArgTypeString
    | ArgTypeBool
    | ArgTypeUnknown

  /** The enumerator's value in C. */
  function Ordinal(t: LuaArgType): (n: nat)
    ensures n < 5
  {
    match t
    case ArgTypeNil => 0
    case ArgTypeNumber => 1
    case ArgTypeString => 2
    case ArgTypeBool => 3
    case ArgTypeUnknown => 4
  }

  /** The enumerator with a given C value, if there is one. */
  function FromOrdinal(n: int): (t: Option<LuaArgType>)
    ensures t.Some? <==> 0 <= n < 5
  {
    if n == 0 then Some(ArgTypeNil)
    else if n == 1 then Some(ArgTypeNumber)
    else if n == 2 then Some(ArgTypeString)
    else if n == 3 then Some(ArgTypeBool)
    else if n == 4 then Some(ArgTypeUnknown)
    else None
  }

  const AllArgTypes: set<LuaArgType> :=
    {ArgTypeNil, ArgTypeNumber, ArgTypeString, ArgTypeBool, ArgTypeUnknown}

  /** There are exactly five categories, numbered 0 to 4 without gaps or
      repeats. */
  lemma ArgTypesAreFive()
    ensures forall t: LuaArgType :: t in AllArgTypes
    ensures |AllArgTypes| == 5
    ensures forall t: LuaArgType :: FromOrdinal(Ordinal(t)) == Some(t)
    ensures forall n | 0 <= n < 5 :: Ordinal(FromOrdinal(n).value) == n
  {
    forall t: LuaArgType ensures t in AllArgTypes {
      match t
      case ArgTypeNil =>
      case ArgTypeNumber =>
      case ArgTypeString =>
      case ArgTypeBool =>
      case ArgTypeUnknown =>
    }
  }

  /** A C function pointer of type LuaFunctionType. `NullFn` is the null
      pointer that ends a `luaDef` list; `DebugPrint` and `Version` are the
      bridge's built-ins; every other function is a host function. */
  datatype NativeFn = NullFn | DebugPrint | Version | HostFn(id: nat)

  /** A `luaDef` entry: a nullable name and a function pointer. */
  datatype LuaDef = LuaDef(name: Option<string>, func: NativeFn)

  /** A list is well formed when some entry has a null name; the entries
      before the first such entry are the ones it registers. */
  predicate HasTerminator(defs: seq<LuaDef>) {
    exists i | 0 <= i < |defs| :: defs[i].name.None?
  }

  /** Position of the first entry with a null name. */
  function TerminatorIndex(defs: seq<LuaDef>): (k: nat)
    requires HasTerminator(defs)
    ensures k < |defs| && defs[k].name.None?
    ensures forall j | 0 <= j < k :: defs[j].name.Some?
  {
    if defs[0].name.None? then 0
    else
      assert HasTerminator(defs[1..]) by {
        var i :| 0 <= i < |defs| && defs[i].name.None?;
        assert defs[1..][i - 1].name.None?;
      }
      var k := TerminatorIndex(defs[1..]);
      assert forall j | 1 <= j < k + 1 :: defs[j] == defs[1..][j - 1];
      1 + k
  }

  /** Appending entries after a terminator does not move it. */
  lemma {:induction false} TerminatorIndexIgnoresTail(defs: seq<LuaDef>, tail: seq<LuaDef>)
    requires HasTerminator(defs)
    ensures HasTerminator(defs + tail)
    ensures TerminatorIndex(defs + tail) == TerminatorIndex(defs)
  {
    var k := TerminatorIndex(defs);
    assert (defs + tail)[k] == defs[k];
  }

  /** The bridge's built-in registrations: a console print under two names
      and the interpreter's version banner, then the terminator. */
  const DebugGlue: seq<LuaDef> := [
    LuaDef(Some("Print"), DebugPrint),
    LuaDef(Some("print"), DebugPrint),
    LuaDef(Some("Version"), Version),
    LuaDef(None, NullFn)
  ]

  /** An error handler function pointer. */
  datatype ErrorHandler = DefaultErrorHandler | HostHandler(id: nat)
}
