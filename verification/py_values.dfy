/** Python values and exceptions as the evaluation engine meets them: the
    decoded JSON configuration, the entries of the `results` dictionary and
    whatever a check returns. */
module PyValues {

  /** A Python object of the kinds `json.load` produces (dict, list, str,
      int, float, bool, None). A float is modelled as an exact real. */
  datatype Value =
    | VNone
    | VBool(b: bool)
    | VInt(i: int)
    | VReal(r: real)
    | VStr(s: string)
    | VList(items: seq<Value>)
    | VDict(entries: map<string, Value>)

  /** The exceptions the engine can raise. `NotModelled` marks a Python
      behaviour this model does not follow (each use is listed in README). */
  datatype PyError =
    | KeyError(key: string)
    | TypeError
    | AttributeError
    | ZeroDivisionError
    | ValueError
    | NotModelled(what: string)

  /** A Python call either returns a value or raises. */
  datatype Result<T> = Ok(value: T) | Err(error: PyError)

  datatype Option<T> = None | Some(value: T)

  /** Python truthiness, as in `if v:`. */
  predicate Truthy(v: Value) {
    match v
    case VNone => false
    case VBool(b) => b
    case VInt(i) => i != 0
    case VReal(r) => r != 0.0
    case VStr(s) => |s| > 0
    case VList(items) => |items| > 0
    case VDict(entries) => |entries| > 0
  }

  /** `v == False` under Python equality: bool is a subclass of int, so
      `0` and `0.0` are equal to `False` as well. */
  predicate EqualsFalse(v: Value) {
    v == VBool(false) || v == VInt(0) || v == VReal(0.0)
  }

  /** The number an ordering comparison sees: bool, int and float compare
      as numbers; every other kind has no number. */
  function AsNumber(v: Value): Option<real> {
    match v
    case VBool(b) => Some(if b then 1.0 else 0.0)
    case VInt(i) => Some(i as real)
    case VReal(r) => Some(r)
    case _ => None
  }

  /** `xs.count(b)` on a list of bools. */
  function Count(xs: seq<bool>, b: bool): (n: nat)
    ensures n <= |xs|
    ensures n == 0 <==> forall i :: 0 <= i < |xs| ==> xs[i] != b
  {
    if xs == [] then 0 else (if xs[0] == b then 1 else 0) + Count(xs[1..], b)
  }

  /** Every bool of a list is either True or False: the two counts add up. */
  lemma {:induction false} CountPartition(xs: seq<bool>)
    ensures Count(xs, true) + Count(xs, false) == |xs|
  {
    if xs != [] {
      CountPartition(xs[1..]);
    }
  }

  /** `xs.count(False)` on a list of arbitrary values. */
  function CountFalse(xs: seq<Value>): (n: nat)
    ensures n <= |xs|
    ensures n > 0 <==> exists i :: 0 <= i < |xs| && EqualsFalse(xs[i])
  {
    if xs == [] then 0
    else
      assert forall i :: 1 <= i < |xs| ==> xs[1..][i - 1] == xs[i];
      (if EqualsFalse(xs[0]) then 1 else 0) + CountFalse(xs[1..])
  }

  /** The Python list of bools `[b for b in xs]`. */
  function BoolValues(xs: seq<bool>): seq<Value> {
    seq(|xs|, i requires 0 <= i < |xs| => VBool(xs[i]))
  }

  /** On a list of bools, `count(False)` counts exactly the `False` entries. */
  lemma {:induction false} CountFalseOfBools(xs: seq<bool>)
    ensures CountFalse(BoolValues(xs)) == Count(xs, false)
  {
    if xs != [] {
      assert BoolValues(xs)[1..] == BoolValues(xs[1..]);
      CountFalseOfBools(xs[1..]);
    }
  }
}
