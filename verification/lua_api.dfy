/** The slice of the Lua C API the bridge drives: the values a stack slot can
    hold, the integer type tags `lua_type` reports, which stack indices the API
    accepts, and the status of loading or running a chunk. The interpreter
    itself is not modelled. */
module LuaApi {
  import opened Wrappers

  /** A Lua number, kept as the bit pattern of the C double; no arithmetic
      is modelled. */
  type Float64 = bv64

  /** Identity of a heap object (table, function, userdata, thread) or of a
      light userdata pointer. */
  type Ref = nat

  datatype LuaValue =
    | Nil
    | Boolean(b: bool)
    | LightUserdata(p: Ref)
    | Number(n: Float64)
    | Str(s: string)
    | Table(t: Ref)
    | Function(f: Ref)
    | Userdata(u: Ref)
    | Thread(th: Ref)

  /** The type tags of lua.h. `TNone` stands for a slot that holds nothing. */
  const TNone: int := -1
  const TNil: int := 0
  const TBoolean: int := 1
  const TLightUserdata: int := 2
  const TNumber: int := 3
  const TString: int := 4
  const TTable: int := 5
  const TFunction: int := 6
  const TUserdata: int := 7
  const TThread: int := 8

  /** lua_type: the tag of what a slot holds. */
  function TypeTag(slot: Option<LuaValue>): (tag: int)
    ensures TNone <= tag <= TThread
    ensures tag == TNone <==> slot.None?
    ensures tag == TNil <==> slot == Some(Nil)
  {
    match slot
    case None => TNone
    case Some(v) =>
      match v
      case Nil => TNil
      case Boolean(_) => TBoolean
      case LightUserdata(_) => TLightUserdata
      case Number(_) => TNumber
      case Str(_) => TString
      case Table(_) => TTable
      case Function(_) => TFunction
      case Userdata(_) => TUserdata
      case Thread(_) => TThread
  }

  /** An index the API accepts while a C function runs: a positive index,
      possibly above the top, or a negative offset that stays within the
      stack. Zero and the pseudo-indices are not modelled as acceptable. */
  predicate Acceptable(stack: seq<LuaValue>, index: int) {
    index >= 1 || -|stack| <= index <= -1
  }

  /** The value at a stack index, `None` for a positive index above the top. */
  function Slot(stack: seq<LuaValue>, index: int): (v: Option<LuaValue>)
    requires Acceptable(stack, index)
    ensures v.None? <==> index > |stack|
    ensures 1 <= index <= |stack| ==> v == Some(stack[index - 1])
    ensures index < 0 ==> v == Some(stack[|stack| + index])
  {
    if index > |stack| then None
    else if index >= 1 then Some(stack[index - 1])
    else Some(stack[|stack| + index])
  }

  /** Where in the stack a present slot sits, counting from 0 at the bottom. */
  function Position(stack: seq<LuaValue>, index: int): (j: nat)
    requires Acceptable(stack, index) && index <= |stack|
    ensures j < |stack| && Slot(stack, index) == Some(stack[j])
  {
    if index >= 1 then index - 1 else |stack| + index
  }

  /** The stack with a present slot overwritten in place. */
  function SetSlot(stack: seq<LuaValue>, index: int, v: LuaValue): (r: seq<LuaValue>)
    requires Acceptable(stack, index) && index <= |stack|
    ensures |r| == |stack| && Acceptable(r, index)
    ensures Slot(r, index) == Some(v)
    ensures forall j | 0 <= j < |stack| && j != Position(stack, index) :: r[j] == stack[j]
  {
    stack[Position(stack, index) := v]
  }

  /** lua_isnoneornil: the slot is absent or holds nil. */
  predicate IsNoneOrNil(slot: Option<LuaValue>) {
    TypeTag(slot) <= TNil
  }

  /** lua_toboolean: only nil and false are false. */
  function ToBoolean(v: LuaValue): bool {
    !(v == Nil || v == Boolean(false))
  }

  /** What lua_pushstring pushes for a C string pointer: the string, or nil
      for a null pointer. */
  function StringValue(p: Option<string>): (v: LuaValue)
    ensures p.None? ==> v == Nil
    ensures p.Some? ==> v.Str? && v.s == p.value
  {
    match p
    case None => Nil
    case Some(s) => Str(s)
  }

  /** The status luaL_loadfile, luaL_loadbuffer or lua_pcall returns: zero, or
      non-zero with the interpreter's error text left on the stack. */
  datatype Status = Ok | Err(message: string)
}
