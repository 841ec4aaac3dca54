/** Small shared vocabulary: an optional value, real-number helpers and sequence helpers. */
module Common {

  /** JavaScript `undefined`/`null` for an optional field or a lookup that found nothing. */
  datatype Option<+T> = None | Some(value: T) {
    /** The `??` operator: the value if present, otherwise the default. */
    function GetOr(default: T): T {
      match this
      case Some(v) => v
      case None => default
    }
  }

  /** `Math.min` and `Math.max` on two reals. */
  function Min(a: real, b: real): real { if a <= b then a else b }
  function Max(a: real, b: real): real { if a >= b then a else b }

  function Cube(x: real): real { x * x * x }

  /** A draw of `Math.random()`: a real in [0,1). */
  predicate IsDraw(r: real) { 0.0 <= r < 1.0 }

  /** `Math.ceil` on a real. */
  function Ceil(x: real): int { if x.Floor as real == x then x.Floor else x.Floor + 1 }

  /** `reduce((a, v) => a + v, 0)`: a left fold, so the last element is added last. */
  function Sum(s: seq<real>): real {
    if |s| == 0 then 0.0 else Sum(s[..|s| - 1]) + s[|s| - 1]
  }

  function Map<A, B>(f: A -> B, s: seq<A>): (r: seq<B>)
    ensures |r| == |s| && forall k :: 0 <= k < |s| ==> r[k] == f(s[k])
  {
    seq(|s|, k requires 0 <= k < |s| => f(s[k]))
  }

  /** No object (or value) occurs twice. */
  predicate Distinct<T(==)>(s: seq<T>) {
    forall i, j :: 0 <= i < j < |s| ==> s[i] != s[j]
  }

  /** The object o is not one of the objects in s. */
  predicate Outside(o: object, s: seq<object>) {
    o !in s
  }

  lemma MulNonneg(a: real, b: real)
    requires a >= 0.0 && b >= 0.0
    ensures a * b >= 0.0
  {
  }

  /** `lerp(a, b, t)`: the point a fraction t of the way from a to b. */
  function Lerp(a: real, b: real, t: real): (r: real)
    ensures t == 0.0 ==> r == a
    ensures t == 1.0 ==> r == b
  {
    a + (b - a) * t
  }

  /** With t in [0,1] the interpolated point lies between the two ends. */
  lemma LerpBetween(a: real, b: real, t: real)
    requires 0.0 <= t <= 1.0
    ensures Min(a, b) <= Lerp(a, b, t) <= Max(a, b)
  {
    if a <= b {
      MulNonneg(b - a, t);
      MulNonneg(b - a, 1.0 - t);
    } else {
      MulNonneg(a - b, t);
      MulNonneg(a - b, 1.0 - t);
    }
  }

  /** The sum of values that each lie in [lo, hi]. */
  lemma {:induction false} SumBounds(s: seq<real>, lo: real, hi: real)
    requires forall k :: 0 <= k < |s| ==> lo <= s[k] <= hi
    ensures |s| as real * lo <= Sum(s) <= |s| as real * hi
  {
    if |s| > 0 {
      SumBounds(s[..|s| - 1], lo, hi);
    }
  }

  /** The fold also takes a first element off the front: `Sum([a] + s) == a + Sum(s)`. */
  lemma {:induction false} SumCons(a: real, s: seq<real>)
    ensures Sum([a] + s) == a + Sum(s)
  {
    if |s| > 0 {
      assert ([a] + s)[..|s|] == [a] + s[..|s| - 1];
      SumCons(a, s[..|s| - 1]);
    }
  }

  /** A non-empty list is its front followed by its last element, also behind a prefix. */
  lemma SplitLast<X>(ps: seq<X>, qs: seq<X>)
    requires |qs| > 0
    ensures qs == qs[..|qs| - 1] + [qs[|qs| - 1]]
    ensures ps + qs == (ps + qs[..|qs| - 1]) + [qs[|qs| - 1]]
  {
  }

  lemma ConcatAssoc<X>(a: seq<X>, b: seq<X>, c: seq<X>)
    ensures (a + b) + c == a + (b + c)
  {
  }
}
