/**
 * The flow and cost numbers of the multicommodity network (`Graph::FNumber`,
 * `Graph::CNumber`). The graph library gives each type a distinguished
 * infinity `Inf<T>()`; here a number is a finite integer or that infinity.
 */
module Numbers {

  datatype Ext = Fin(n: int) | Inf

  /** `a + b`; an infinite operand makes the sum infinite. */
  function Add(a: Ext, b: Ext): Ext
  {
    if a.Fin? && b.Fin? then Fin(a.n + b.n) else Inf
  }

  /** `a < b`; every finite number is below infinity. */
  predicate Less(a: Ext, b: Ext)
  {
    match (a, b)
    case (Fin(x), Fin(y)) => x < y
    case (Fin(_), Inf) => true
    case (Inf, _) => false
  }

  /** `std::min(a, b)`, which returns `b` only when `b < a`. */
  function Min(a: Ext, b: Ext): (r: Ext)
    ensures r == a || r == b
    ensures !Less(a, r) && !Less(b, r)
    ensures r == Inf <==> a == Inf && b == Inf
  {
    if Less(b, a) then b else a
  }

  /** The sum of `xs`, accumulated from the front. */
  function Sum(xs: seq<Ext>): Ext
  {
    if xs == [] then Fin(0) else Add(Sum(xs[..|xs| - 1]), xs[|xs| - 1])
  }

  /** A sum is infinite exactly when one of its terms is. */
  lemma {:induction false} SumInfinite(xs: seq<Ext>)
    ensures Sum(xs) == Inf <==> exists i :: 0 <= i < |xs| && xs[i] == Inf
  {
    if xs != [] {
      var init := xs[..|xs| - 1];
      SumInfinite(init);
      if exists i :: 0 <= i < |init| && init[i] == Inf {
        var i :| 0 <= i < |init| && init[i] == Inf;
        assert xs[i] == Inf;
      }
      if exists i :: 0 <= i < |xs| && xs[i] == Inf {
        var i :| 0 <= i < |xs| && xs[i] == Inf;
        if i < |init| {
          assert init[i] == Inf;
        }
      }
    }
  }

  /** Once a prefix sums to infinity, so does every extension of it. */
  lemma PrefixSumInfinite(xs: seq<Ext>, k: nat)
    requires k <= |xs| && Sum(xs[..k]) == Inf
    ensures Sum(xs) == Inf
  {
    SumInfinite(xs[..k]);
    var i :| 0 <= i < k && xs[..k][i] == Inf;
    assert xs[i] == Inf;
    SumInfinite(xs);
  }
}
