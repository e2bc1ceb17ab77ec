/** Python values of the shapes JSON produces (None, bool, int, str, list, dict with
    string keys), with the Python operators the core applies to them: truthiness,
    `==`, `in`, `x[key]`, `len`, `>=` against an int, and `str()`. */
module Json {
  import opened Common

  datatype Value =
    | Null
    | Bool(b: bool)
    | Int(i: int)
    | Str(s: string)
    | List(xs: seq<Value>)
    | Dict(m: map<string, Value>)

  /** `json.dumps`, `json.loads` and `str()` on non-strings: library code, given as
      functions. `loads` yields None where Python raises JSONDecodeError. */
  datatype Codec = Codec(dumps: Value -> string, loads: string -> Option<Value>, show: Value -> string)

  /** The one law the model relies on: what `dumps` writes, `loads` reads back. */
  ghost predicate Lawful(c: Codec)
  {
    forall v :: c.loads(c.dumps(v)) == Some(v)
  }

  /** Python's `bool(v)`. */
  predicate Truthy(v: Value)
    ensures v.Null? ==> !Truthy(v)
    ensures v.Bool? || v.Int? ==> (Truthy(v) <==> !Eq(v, Int(0)))
    ensures v.Str? || v.List? || v.Dict? ==> (Truthy(v) <==> Len(v).Ok? && Len(v).value != 0)
  {
    match v
    case Null => false
    case Bool(b) => b
    case Int(i) => i != 0
    case Str(s) => s != ""
    case List(xs) => xs != []
    case Dict(m) => m != map[]
  }

  /** Python's `a == b`: structural, except that `True == 1` and `False == 0`. */
  predicate Eq(a: Value, b: Value)
    ensures a.Str? || b.Str? || a.Null? || b.Null? ==> (Eq(a, b) <==> a == b)
  {
    match (a, b)
    case (Bool(x), Int(y)) => (if x then 1 else 0) == y
    case (Int(x), Bool(y)) => x == (if y then 1 else 0)
    case (List(xs), List(ys)) => |xs| == |ys| && forall k :: 0 <= k < |xs| ==> Eq(xs[k], ys[k])
    case (Dict(m), Dict(n)) => m.Keys == n.Keys && forall k :: k in m ==> Eq(m[k], n[k])
    case _ => a == b
  }

  lemma {:induction false} EqReflexive(a: Value)
    ensures Eq(a, a)
  {
    match a
    case List(xs) =>
      forall k | 0 <= k < |xs| ensures Eq(xs[k], xs[k]) { EqReflexive(xs[k]); }
    case Dict(m) =>
      forall k | k in m ensures Eq(m[k], m[k]) { EqReflexive(m[k]); }
    case _ =>
  }

  lemma {:induction false} EqSymmetric(a: Value, b: Value)
    requires Eq(a, b)
    ensures Eq(b, a)
  {
    match (a, b)
    case (List(xs), List(ys)) =>
      forall k | 0 <= k < |ys| ensures Eq(ys[k], xs[k]) { EqSymmetric(xs[k], ys[k]); }
    case (Dict(m), Dict(n)) =>
      forall k | k in n ensures Eq(n[k], m[k]) { EqSymmetric(m[k], n[k]); }
    case _ =>
  }

  /** Whether `needle` occurs as a contiguous slice of `hay` (Python's `needle in hay`
      on two strings). */
  predicate Substring(needle: string, hay: string)
  {
    exists k | 0 <= k <= |hay| - |needle| :: OccursAt(needle, hay, k)
  }

  predicate OccursAt(needle: string, hay: string, k: int)
  {
    0 <= k <= |hay| - |needle| && hay[k..k + |needle|] == needle
  }

  /** Whether some element of `xs` is `==` to `item`. */
  predicate Member(item: Value, xs: seq<Value>)
  {
    exists k :: 0 <= k < |xs| && Eq(item, xs[k])
  }

  /** Python's `item in container`. A dict tests its keys (a list or dict item is
      unhashable), a list tests its elements with `==`, a string tests substrings
      of a string item; anything else raises TypeError. */
  function In(item: Value, container: Value): (r: Result<bool>)
    ensures container.Dict? && item.Str? ==> r == Ok(item.s in container.m)
    ensures container.Dict? && (item.Null? || item.Bool? || item.Int?) ==> r == Ok(false)
    ensures container.List? ==> r == Ok(Member(item, container.xs))
    ensures container.Str? && item.Str? ==> r == Ok(Substring(item.s, container.s))
    ensures r.Err? <==> (container.Dict? && (item.List? || item.Dict?)) || (container.Str? && !item.Str?)
                        || container.Null? || container.Bool? || container.Int?
  {
    match container
    case Dict(m) =>
      if item.List? || item.Dict? then Err(TypeError) else Ok(item.Str? && item.s in m)
    case List(xs) => Ok(Member(item, xs))
    case Str(s) => if item.Str? then Ok(Substring(item.s, s)) else Err(TypeError)
    case _ => Err(TypeError)
  }

  /** Python's `container[key]` for a string key. */
  function Subscript(container: Value, key: string): (r: Result<Value>)
    ensures r.Ok? <==> container.Dict? && key in container.m
    ensures r.Ok? ==> r.value == container.m[key]
    ensures container.Dict? && key !in container.m ==> r == Err(KeyError(key))
    ensures !container.Dict? ==> r == Err(TypeError)
  {
    match container
    case Dict(m) => if key in m then Ok(m[key]) else Err(KeyError(key))
    case _ => Err(TypeError)
  }

  /** `d.get(key, default)` on a dict. */
  function GetOr(d: map<string, Value>, key: string, default: Value): (r: Value)
    ensures key in d ==> r == d[key]
    ensures key !in d ==> r == default
  {
    if key in d then d[key] else default
  }

  /** Python's `len(v)`; numbers, booleans and None raise TypeError. */
  function Len(v: Value): (r: Result<nat>)
    ensures r.Ok? <==> v.Str? || v.List? || v.Dict?
    ensures v.List? ==> r == Ok(|v.xs|)
  {
    match v
    case Str(s) => Ok(|s|)
    case List(xs) => Ok(|xs|)
    case Dict(m) => Ok(|m|)
    case _ => Err(TypeError)
  }

  /** Python's `n >= bound` for an int `n`: a bool compares as 0 or 1, anything that
      is not a number raises TypeError. */
  function AtLeast(n: int, bound: Value): (r: Result<bool>)
    ensures bound.Int? ==> r == Ok(n >= bound.i)
    ensures bound.Bool? ==> r == Ok(n >= if bound.b then 1 else 0)
    ensures r.Err? <==> !(bound.Int? || bound.Bool?)
  {
    match bound
    case Int(b) => Ok(n >= b)
    case Bool(b) => Ok(n >= if b then 1 else 0)
    case _ => Err(TypeError)
  }

  /** Python's `str(v)`: a string is itself, anything else is rendered by the
      library's `show`. */
  function Text(c: Codec, v: Value): (r: string)
    ensures v.Str? ==> r == v.s
  {
    if v.Str? then v.s else c.show(v)
  }

  /** Whether `v` has the attribute `name`, for the attribute names the core looks up
      on values: only a dict and a list have `copy`; no JSON value has `dumps`. */
  predicate HasAttribute(v: Value, name: string)
  {
    name == "copy" && (v.Dict? || v.List?)
  }

  /** `text[:n] + "..."`, the truncated previews the log lines carry. */
  function Preview(text: string, n: nat): (r: string)
    ensures |r| == (if |text| < n then |text| else n) + 3
    ensures r[..|r| - 3] == text[..if |text| < n then |text| else n]
    ensures r[|r| - 3..] == "..."
  {
    (if |text| < n then text else text[..n]) + "..."
  }
}
