/**
 * The values a workflow threads through its steps: the contents of the
 * state dictionary, and the flat merge that a successful step applies to it.
 */
module Values {

  datatype Option<+T> = None | Some(value: T)

  /** A Python value as it can appear in workflow state (floats are not modelled). */
  datatype Value =
    | VNone
    | VBool(b: bool)
    | VInt(i: int)
    | VStr(s: string)
    | VList(items: seq<Value>)
    | VDict(entries: map<string, Value>)

  /** The run state: a dictionary from string keys to values. */
  type State = map<string, Value>

  /** `d.get(key, default)` */
  function Get(d: map<string, Value>, key: string, default: Value): Value
  {
    if key in d then d[key] else default
  }

  /** The integer a value stands for in Python arithmetic and comparisons
      (`bool` is a subclass of `int`); None when Python raises a TypeError. */
  function AsInt(v: Value): Option<int>
  {
    match v
    case VInt(i) => Some(i)
    case VBool(b) => Some(if b then 1 else 0)
    case _ => None
  }

  /** Python's name for the type of a value, as it appears in TypeError texts. */
  function TypeName(v: Value): string
  {
    match v
    case VNone => "NoneType"
    case VBool(_) => "bool"
    case VInt(_) => "int"
    case VStr(_) => "str"
    case VList(_) => "list"
    case VDict(_) => "dict"
  }

  /** Text of the TypeError `x + n` raises, for an int n, when x is not a number. */
  function AddIntError(v: Value): string
  {
    match v
    case VStr(_) => "can only concatenate str (not \"int\") to str"
    case VList(_) => "can only concatenate list (not \"int\") to list"
    case _ => "unsupported operand type(s) for +: '" + TypeName(v) + "' and 'int'"
  }

  /**
   * What `if result and isinstance(result, dict): state.update(result)` does
   * to the run state: a non-empty dictionary overrides key by key, anything
   * else (None, an empty dictionary, a non-dictionary) leaves the state as it was.
   */
  function Merge(s: State, result: Value): (r: State)
    ensures result.VDict? ==> r.Keys == s.Keys + result.entries.Keys
    ensures result.VDict? ==> forall k :: k in result.entries ==> r[k] == result.entries[k]
    ensures forall k :: k in s && !(result.VDict? && k in result.entries) ==> k in r && r[k] == s[k]
    ensures !result.VDict? ==> r == s
  {
    if result.VDict? && |result.entries| > 0 then s + result.entries else s
  }

  function DigitChar(d: nat): char
    requires d < 10
  {
    "0123456789"[d]
  }

  /** Decimal rendering of a natural number, as Python's `str` gives it. */
  function NatToDecimal(n: nat): (r: string)
    ensures |r| > 0
    ensures forall i :: 0 <= i < |r| ==> '0' <= r[i] <= '9'
  {
    if n < 10 then [DigitChar(n)] else NatToDecimal(n / 10) + [DigitChar(n % 10)]
  }

  /** Decimal rendering of an integer, with a leading '-' when negative. */
  function IntToDecimal(i: int): string
  {
    if i < 0 then "-" + NatToDecimal(-i) else NatToDecimal(i)
  }
}
