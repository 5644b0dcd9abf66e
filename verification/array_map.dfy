/** `Array.prototype.map` (section 23.1.3.21 of ECMA-262) with a callback that
    may throw. The callback is applied to the elements in index order; the
    first exception escapes `map` and the remaining elements are never
    visited. */
module ArrayMap {

  import opened Wrappers

  /** Element `k` is the first one on which `f` throws. */
  ghost predicate FirstThrow<T, U, E>(xs: seq<T>, f: T -> Result<U, E>, k: int)
  {
    && 0 <= k < |xs|
    && f(xs[k]).Failure?
    && forall j :: 0 <= j < k ==> f(xs[j]).Success?
  }

  /** `xs.map(f)`: either the mapped array or the first exception. */
  function MapOrThrow<T, U, E>(xs: seq<T>, f: T -> Result<U, E>): (r: Result<seq<U>, E>)
    ensures r.Success? <==> forall i :: 0 <= i < |xs| ==> f(xs[i]).Success?
    ensures r.Success? ==> |r.value| == |xs|
    ensures r.Success? ==> forall i :: 0 <= i < |xs| ==> f(xs[i]) == Success(r.value[i])
    ensures r.Failure? ==> exists k :: FirstThrow(xs, f, k) && f(xs[k]) == Failure(r.error)
    decreases |xs|
  {
    if |xs| == 0 then Success([])
    else
      match f(xs[0])
      case Failure(e) =>
        assert FirstThrow(xs, f, 0);
        Failure(e)
      case Success(y) =>
        match MapOrThrow(xs[1..], f)
        case Failure(e) =>
          FirstThrowShift(xs, f, e);
          Failure(e)
        case Success(ys) =>
          Success([y] + ys)
  }

  /** A first throw in the tail is a first throw of the whole array once the
      head has been mapped. */
  lemma FirstThrowShift<T, U, E>(xs: seq<T>, f: T -> Result<U, E>, e: E)
    requires |xs| > 0 && f(xs[0]).Success?
    requires exists k :: FirstThrow(xs[1..], f, k) && f(xs[1..][k]) == Failure(e)
    ensures exists k :: FirstThrow(xs, f, k) && f(xs[k]) == Failure(e)
  {
  }

  /** There is at most one first throw. */
  lemma FirstThrowUnique<T, U, E>(xs: seq<T>, f: T -> Result<U, E>, k: int, k': int)
    requires FirstThrow(xs, f, k) && FirstThrow(xs, f, k')
    ensures k == k'
  {
  }

  /** Mapping a concatenation is mapping the two halves: an exception in the
      first half wins, otherwise the second half's exception, otherwise the
      two mapped halves side by side. */
  lemma {:induction false} MapConcat<T, U, E>(a: seq<T>, b: seq<T>, f: T -> Result<U, E>)
    ensures MapOrThrow(a + b, f) ==
      match MapOrThrow(a, f)
      case Failure(e) => Failure(e)
      case Success(ya) =>
        match MapOrThrow(b, f)
        case Failure(e) => Failure(e)
        case Success(yb) => Success(ya + yb)
    decreases |a|
  {
    if |a| == 0 {
      assert a + b == b;
      match MapOrThrow(b, f)
      case Failure(e) =>
      case Success(yb) =>
        assert [] + yb == yb;
    } else {
      assert (a + b)[1..] == a[1..] + b;
      MapConcat(a[1..], b, f);
      match f(a[0])
      case Failure(e) =>
      case Success(y) =>
        match MapOrThrow(a[1..], f)
        case Failure(e) =>
        case Success(ys) =>
          match MapOrThrow(b, f)
          case Failure(e) =>
          case Success(yb) =>
            assert [y] + (ys + yb) == ([y] + ys) + yb;
    }
  }
}
