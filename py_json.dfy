/**
 * Python values as they come out of `json.loads`, and the handful of Python
 * built-ins the scraper applies to them: truthiness, `or`, `dict.get`,
 * `key in dict`, `str()` and `int()`.
 *
 * A dict is an ORDERED list of key/value pairs: Python dicts keep insertion
 * order and the scraper observes that order (`dict.values()` in the tree walk
 * and in the image-size scan, `dict.keys()` in the CSV header).
 */
module PyJson {

  datatype Option<+T> = None | Some(value: T)

  /** An exception that a Python call raises instead of returning. */
  datatype Exc = ValueError | TypeError | RecursionError | OSError | KeyError | AttributeError

  /** The outcome of a Python call that may raise. */
  datatype Outcome<+T> = Ok(value: T) | Raise(exc: Exc)

  datatype Json =
    | JNull
    | JBool(b: bool)
    | JInt(i: int)
    | JFloat(r: real)
    | JStr(s: string)
    | JArr(items: seq<Json>)
    | JObj(fields: seq<(string, Json)>)

  type Dict = seq<(string, Json)>

  /** What the Python runtime does that is not modelled here, given as functions. */
  datatype Runtime = Runtime(
    /** `json.loads`: None when it raises. */
    decode: string -> Option<Json>,
    /** `str()` of a float, list or dict: None when it raises (RecursionError on very deep values). */
    repr: Json -> Option<string>,
    /** `int()` of a string: None when it raises ValueError. */
    parseInt: string -> Option<int>)

  /** Python truthiness: None, False, 0, 0.0, "", [] and {} are falsy. */
  predicate Truthy(j: Json)
  {
    match j
    case JNull => false
    case JBool(b) => b
    case JInt(i) => i != 0
    case JFloat(r) => r != 0.0
    case JStr(s) => s != ""
    case JArr(xs) => xs != []
    case JObj(fs) => fs != []
  }

  /** Python `a or b`: `a` when it is truthy, otherwise `b` (whatever `b` is). */
  function Or(a: Json, b: Json): (r: Json)
    ensures Truthy(a) ==> r == a
    ensures !Truthy(a) ==> r == b
  {
    if Truthy(a) then a else b
  }

  /** The first truthy value of `vals`, or `default` when none is truthy:
      the meaning of a Python chain `v0 or v1 or ... or default`. */
  function FirstTruthy(vals: seq<Json>, default: Json): (r: Json)
    ensures (exists i :: 0 <= i < |vals| && Truthy(vals[i]) && r == vals[i]
                         && forall k :: 0 <= k < i ==> !Truthy(vals[k]))
            || ((forall i :: 0 <= i < |vals| ==> !Truthy(vals[i])) && r == default)
  {
    if vals == [] then default
    else if Truthy(vals[0]) then vals[0]
    else
      var r := FirstTruthy(vals[1..], default);
      assert forall k :: 1 <= k < |vals| ==> vals[k] == vals[1..][k - 1];
      r
  }

  /** One link of an `or` chain. */
  lemma FirstTruthyStep(vals: seq<Json>, default: Json)
    requires vals != []
    ensures FirstTruthy(vals, default) == Or(vals[0], FirstTruthy(vals[1..], default))
  {
  }

  /** The `or` chains of one, two and three values before a default. */
  lemma OrChains(a: Json, b: Json, c: Json, default: Json)
    ensures Or(a, default) == FirstTruthy([a], default)
    ensures Or(a, Or(b, default)) == FirstTruthy([a, b], default)
    ensures Or(a, Or(b, Or(c, default))) == FirstTruthy([a, b, c], default)
  {
    FirstTruthyStep([a, b, c], default);
    assert [a, b, c][1..] == [b, c];
    FirstTruthyStep([b, c], default);
    assert [b, c][1..] == [c];
    FirstTruthyStep([c], default);
    FirstTruthyStep([a, b], default);
    assert [a, b][1..] == [b];
    FirstTruthyStep([b], default);
    FirstTruthyStep([a], default);
  }

  /** A loop that appends `f(x)` for each `x` in order and skips the
      elements for which `f` gives None (a `continue`, or an exception
      caught inside the loop). */
  function FilterMap<A, B>(f: A -> Option<B>, xs: seq<A>): seq<B>
  {
    if xs == [] then []
    else FilterMap(f, xs[..|xs| - 1]) + match f(xs[|xs| - 1]) case Some(y) => [y] case None => []
  }

  /** Two runs are processed one after the other. */
  lemma {:induction false} FilterMapAppend<A, B>(f: A -> Option<B>, a: seq<A>, b: seq<A>)
    ensures FilterMap(f, a + b) == FilterMap(f, a) + FilterMap(f, b)
    decreases |b|
  {
    if b == [] {
      assert a + b == a;
    } else {
      var b' := b[..|b| - 1];
      assert (a + b)[..|a + b| - 1] == a + b';
      assert (a + b)[|a + b| - 1] == b[|b| - 1];
      FilterMapAppend(f, a, b');
    }
  }

  /** The concatenation of what `f` gives for each element, in order. */
  function FlatMap<A, B>(f: A -> seq<B>, xs: seq<A>): seq<B>
  {
    if xs == [] then [] else FlatMap(f, xs[..|xs| - 1]) + f(xs[|xs| - 1])
  }

  /** Two runs are processed one after the other. */
  lemma {:induction false} FlatMapAppend<A, B>(f: A -> seq<B>, a: seq<A>, b: seq<A>)
    ensures FlatMap(f, a + b) == FlatMap(f, a) + FlatMap(f, b)
    decreases |b|
  {
    if b == [] {
      assert a + b == a;
    } else {
      var b' := b[..|b| - 1];
      assert (a + b)[..|a + b| - 1] == a + b';
      assert (a + b)[|a + b| - 1] == b[|b| - 1];
      FlatMapAppend(f, a, b');
    }
  }

  /** One more element processed. */
  lemma FilterMapSnoc<A, B>(f: A -> Option<B>, xs: seq<A>, i: nat)
    requires 0 < i <= |xs|
    ensures FilterMap(f, xs[..i]) == FilterMap(f, xs[..i - 1]) + match f(xs[i - 1]) case Some(y) => [y] case None => []
  {
    assert xs[..i][..i - 1] == xs[..i - 1];
  }

  /** A sequence is its first `i` elements followed by the rest. */
  lemma TakeDrop<T>(xs: seq<T>, i: nat)
    requires i <= |xs|
    ensures xs[..i] + xs[i..] == xs
  {
  }

  /** The first `n` elements are the first `n - 1` and then the `n`th. */
  lemma TakeSnoc<T>(xs: seq<T>, n: nat)
    requires 0 < n <= |xs|
    ensures xs[..n - 1] + [xs[n - 1]] == xs[..n]
  {
  }

  /** A sequence is a prefix of itself followed by more. */
  lemma PrefixOfAppend<T>(x: seq<T>, y: seq<T>)
    ensures x <= x + y
  {
    assert (x + y)[..|x|] == x;
  }

  /** What a prefix of the input gives is a prefix of what the whole gives. */
  lemma FilterMapPrefix<A, B>(f: A -> Option<B>, xs: seq<A>, i: nat)
    requires i <= |xs|
    ensures FilterMap(f, xs[..i]) <= FilterMap(f, xs)
  {
    var a, b := xs[..i], xs[i..];
    TakeDrop(xs, i);
    FilterMapAppend(f, a, b);
    PrefixOfAppend(FilterMap(f, a), FilterMap(f, b));
  }

  /** What is kept is exactly what `f` gives for some element. */
  lemma {:induction false} FilterMapMember<A, B>(f: A -> Option<B>, xs: seq<A>, y: B)
    ensures y in FilterMap(f, xs) <==> exists i :: 0 <= i < |xs| && f(xs[i]) == Some(y)
    decreases |xs|
  {
    if xs != [] {
      FilterMapMember(f, xs[..|xs| - 1], y);
      FilterMapMemberStep(f, xs, y);
    }
  }

  /** The step of `FilterMapMember`: from all but the last element to all. */
  lemma FilterMapMemberStep<A, B>(f: A -> Option<B>, xs: seq<A>, y: B)
    requires xs != []
    requires var init := xs[..|xs| - 1];
             y in FilterMap(f, init) <==> exists i :: 0 <= i < |init| && f(init[i]) == Some(y)
    ensures y in FilterMap(f, xs) <==> exists i :: 0 <= i < |xs| && f(xs[i]) == Some(y)
  {
    var init, last := xs[..|xs| - 1], xs[|xs| - 1];
    assert FilterMap(f, xs) == FilterMap(f, init) + match f(last) case Some(z) => [z] case None => [];
    if y in FilterMap(f, xs) && y !in FilterMap(f, init) {
      assert f(xs[|xs| - 1]) == Some(y);
    }
    if y in FilterMap(f, init) {
      var i :| 0 <= i < |init| && f(init[i]) == Some(y);
      assert f(xs[i]) == Some(y);
    }
    if exists i :: 0 <= i < |xs| && f(xs[i]) == Some(y) {
      var i :| 0 <= i < |xs| && f(xs[i]) == Some(y);
      if i < |init| {
        assert f(init[i]) == Some(y);
      }
    }
  }

  /** At most one value per element. */
  lemma {:induction false} FilterMapLength<A, B>(f: A -> Option<B>, xs: seq<A>)
    ensures |FilterMap(f, xs)| <= |xs|
    ensures (forall i :: 0 <= i < |xs| ==> f(xs[i]).Some?) ==> |FilterMap(f, xs)| == |xs|
    decreases |xs|
  {
    if xs != [] {
      var init := xs[..|xs| - 1];
      FilterMapLength(f, init);
      assert forall i :: 0 <= i < |init| ==> init[i] == xs[i];
    }
  }

  predicate HasKey(d: Dict, k: string)
  {
    exists i :: 0 <= i < |d| && d[i].0 == k
  }

  /** The value stored under `k`: the first pair with that key. */
  function Lookup(d: Dict, k: string): (r: Option<Json>)
    ensures r.None? <==> !HasKey(d, k)
    ensures r.Some? ==> exists i :: 0 <= i < |d| && d[i] == (k, r.value)
                                    && forall j :: 0 <= j < i ==> d[j].0 != k
  {
    if d == [] then None
    else if d[0].0 == k then Some(d[0].1)
    else
      var r := Lookup(d[1..], k);
      assert forall j :: 1 <= j < |d| ==> d[j] == d[1..][j - 1];
      r
  }

  /** Python `d.get(k, default)`. */
  function GetOr(d: Dict, k: string, default: Json): Json
  {
    match Lookup(d, k)
    case Some(v) => v
    case None => default
  }

  /** Python `d.get(k)`: None when the key is missing. */
  function Get(d: Dict, k: string): Json
  {
    GetOr(d, k, JNull)
  }

  function Keys(d: Dict): (ks: seq<string>)
    ensures |ks| == |d|
    ensures forall i :: 0 <= i < |d| ==> ks[i] == d[i].0
  {
    seq(|d|, i requires 0 <= i < |d| => d[i].0)
  }

  /** A Python dict: no key appears twice. */
  predicate UniqueKeys(d: Dict)
  {
    forall i, j :: 0 <= i < j < |d| ==> d[i].0 != d[j].0
  }

  /** Python `str(i)` for an int. */
  function IntToString(i: int): (s: string)
    ensures |s| > 0
  {
    if i < 0 then "-" + NatToString(-i) else NatToString(i)
  }

  function NatToString(n: nat): (s: string)
    ensures |s| > 0
    ensures forall c :: c in s ==> '0' <= c <= '9'
    decreases n
  {
    if n < 10 then [DigitChar(n)] else NatToString(n / 10) + [DigitChar(n % 10)]
  }

  function DigitChar(d: nat): (c: char)
    requires d < 10
    ensures '0' <= c <= '9'
  {
    "0123456789"[d]
  }

  /** Python `str(v)`. Exact for None, bools, ints and strings; the
      representation of floats, lists and dicts comes from the runtime. */
  function ToStr(rt: Runtime, v: Json): (r: Option<string>)
    ensures v.JStr? ==> r == Some(v.s)
    ensures v.JNull? ==> r == Some("None")
    ensures v.JInt? ==> r.Some? && |r.value| > 0
  {
    match v
    case JNull => Some("None")
    case JBool(b) => Some(if b then "True" else "False")
    case JInt(i) => Some(IntToString(i))
    case JStr(s) => Some(s)
    case _ => rt.repr(v)
  }

  /** Python `int(v)`: truncation toward zero for floats, TypeError for None,
      lists and dicts, ValueError for a string that is not an integer. */
  function ToInt(rt: Runtime, v: Json): (r: Outcome<int>)
    ensures v.JInt? ==> r == Ok(v.i)
    ensures v.JNull? || v.JArr? || v.JObj? ==> r == Raise(TypeError)
    ensures v.JFloat? ==> r.Ok?
    ensures v.JFloat? && v.r >= 0.0 ==> 0.0 <= v.r - r.value as real < 1.0
    ensures v.JFloat? && v.r < 0.0 ==> -1.0 < v.r - r.value as real <= 0.0
  {
    match v
    case JInt(i) => Ok(i)
    case JBool(b) => Ok(if b then 1 else 0)
    case JFloat(x) => Ok(if x >= 0.0 then x.Floor else -((-x).Floor))
    case JStr(s) =>
      (match rt.parseInt(s)
       case Some(n) => Ok(n)
       case None => Raise(ValueError))
    case _ => Raise(TypeError)
  }
}
