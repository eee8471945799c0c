/** JSON values as Python holds them, and the comparisons that do not tell all of them apart. */
module JsonValue {
  import opened Wrappers

  /** A JSON value. `MinusZero` is the float -0.0, which equals 0 and prints differently. */
  datatype Value =
    | Null
    | Bool(b: bool)
    | Int(n: int)
    | Float(x: real)
    | MinusZero
    | Str(text: string)
    | Dict(entries: map<string, Value>)
    | List(items: seq<Value>)

  /** What a value counts for as a number; booleans are numbers. */
  function NumberOf(v: Value): Option<real> {
    match v
    case Bool(b) => Some(if b then 1.0 else 0.0)
    case Int(n) => Some(n as real)
    case Float(x) => Some(x)
    case MinusZero => Some(0.0)
    case _ => None
  }

  /** Python's `a == b`: numbers by value whatever their type, objects and lists by their parts. */
  predicate JsonEquals(a: Value, b: Value)
    decreases a
  {
    if NumberOf(a).Some? || NumberOf(b).Some? then NumberOf(a) == NumberOf(b)
    else
      match (a, b)
      case (Dict(m), Dict(n)) => m.Keys == n.Keys && forall key :: key in m ==> JsonEquals(m[key], n[key])
      case (List(s), List(t)) => |s| == |t| && forall i :: 0 <= i < |s| ==> JsonEquals(s[i], t[i])
      case (Dict(_), _) => false
      case (List(_), _) => false
      case _ => a == b
  }

  /** Python's equality is an equivalence on JSON values. */
  lemma {:induction false} JsonEqualsItself(v: Value)
    ensures JsonEquals(v, v)
    decreases v
  {
    match v {
      case Dict(m) =>
        forall key | key in m
          ensures JsonEquals(m[key], m[key])
        {
          JsonEqualsItself(m[key]);
        }
      case List(s) =>
        forall i | 0 <= i < |s|
          ensures JsonEquals(s[i], s[i])
        {
          JsonEqualsItself(s[i]);
        }
      case _ =>
    }
  }

  lemma {:induction false} JsonEqualsEither(a: Value, b: Value)
    requires JsonEquals(a, b)
    ensures JsonEquals(b, a)
    decreases a
  {
    if a.Dict? {
      forall key | key in b.entries
        ensures JsonEquals(b.entries[key], a.entries[key])
      {
        JsonEqualsEither(a.entries[key], b.entries[key]);
      }
    }
    if a.List? {
      forall i | 0 <= i < |a.items|
        ensures JsonEquals(b.items[i], a.items[i])
      {
        JsonEqualsEither(a.items[i], b.items[i]);
      }
    }
  }

  lemma {:induction false} JsonEqualsChains(a: Value, b: Value, c: Value)
    requires JsonEquals(a, b) && JsonEquals(b, c)
    ensures JsonEquals(a, c)
    decreases a
  {
    if a.Dict? {
      forall key | key in a.entries
        ensures JsonEquals(a.entries[key], c.entries[key])
      {
        JsonEqualsChains(a.entries[key], b.entries[key], c.entries[key]);
      }
    }
    if a.List? {
      forall i | 0 <= i < |a.items|
        ensures JsonEquals(a.items[i], c.items[i])
      {
        JsonEqualsChains(a.items[i], b.items[i], c.items[i]);
      }
    }
  }

  /** Python's `value == n`. */
  predicate EqualsInt(v: Value, n: int) {
    NumberOf(v) == Some(n as real)
  }

  /** Python's `values == [n, ...]`, item by item. */
  predicate EqualInts(values: seq<Value>, ns: seq<int>) {
    |values| == |ns| && forall i :: 0 <= i < |values| ==> EqualsInt(values[i], ns[i])
  }

  /** A JSON value that Python reads through `str`: a string, or a value that is none, with its JSON
      text and what `str` makes of it. */
  datatype Field = Quoted(text: string) | Bare(json: string, shown: string)

  /** `str(value)` */
  function Shown(f: Field): string {
    match f
    case Quoted(text) => text
    case Bare(_, shown) => shown
  }
}
