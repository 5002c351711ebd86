/**
 * Per-chromosome intervals and the two computations the genome scale does over a
 * list of them: the cumulative span (a `reduce` from 0) and each interval's share
 * of it (a `map` dividing by that sum). Ratios are exact reals.
 */
module Spans {

  /** The tuple-like array `[lower, upper]` of one chromosome's domain. */
  datatype Domain = Domain(lower: int, upper: int)

  /** `h[1] - h[0]`: the width of one domain. */
  function Span(d: Domain): int
  {
    d.upper - d.lower
  }

  /** No domain in the list has a negative width. */
  ghost predicate NoNegativeSpan(ds: seq<Domain>)
  {
    forall i :: 0 <= i < |ds| ==> Span(ds[i]) >= 0
  }

  /** Every domain in the list has a strictly positive width. */
  ghost predicate AllSpansPositive(ds: seq<Domain>)
  {
    forall i :: 0 <= i < |ds| ==> Span(ds[i]) > 0
  }

  /**
   * `ds.reduce((a, h) => a + (h[1] - h[0]), 0)`, folded from the left. It is never
   * negative when no width is; `CumulativeSpanAppend` and `CumulativeSpanPositive`
   * give its other laws.
   */
  function CumulativeSpan(ds: seq<Domain>): (total: int)
    ensures NoNegativeSpan(ds) ==> total >= 0
  {
    if ds == [] then 0 else CumulativeSpan(ds[..|ds| - 1]) + Span(ds[|ds| - 1])
  }

  /** The cumulative span of a concatenation is the sum of the parts' spans. */
  lemma {:induction false} CumulativeSpanAppend(a: seq<Domain>, b: seq<Domain>)
    ensures CumulativeSpan(a + b) == CumulativeSpan(a) + CumulativeSpan(b)
  {
    if b == [] {
      assert a + b == a;
    } else {
      assert (a + b)[..|a + b| - 1] == a + b[..|b| - 1];
      CumulativeSpanAppend(a, b[..|b| - 1]);
    }
  }

  /** A left fold of `+` over a list of reals, starting at 0. */
  function Sum(r: seq<real>): real
  {
    if r == [] then 0.0 else Sum(r[..|r| - 1]) + r[|r| - 1]
  }

  /**
   * `ds.map(el => (el[1] - el[0]) / total)`: each domain's width divided by the
   * same divisor. The map never divides when the list is empty.
   */
  function Scaled(ds: seq<Domain>, total: real): (r: seq<real>)
    requires ds == [] || total != 0.0
    ensures |r| == |ds|
    ensures forall i :: 0 <= i < |ds| ==> r[i] * total == Span(ds[i]) as real
  {
    seq(|ds|, i requires 0 <= i < |ds| => Span(ds[i]) as real / total)
  }

  /** The divisor of `Ratios` is non-zero whenever a division takes place. */
  predicate RatiosDefined(ds: seq<Domain>)
  {
    ds == [] || CumulativeSpan(ds) != 0
  }

  /** The share of the cumulative span that each domain covers. */
  function Ratios(ds: seq<Domain>): (r: seq<real>)
    requires RatiosDefined(ds)
    ensures |r| == |ds|
    ensures forall i :: 0 <= i < |ds| ==> r[i] * CumulativeSpan(ds) as real == Span(ds[i]) as real
  {
    Scaled(ds, CumulativeSpan(ds) as real)
  }

  /** A non-zero real divided by itself is 1; split out for `RatiosSumToOne`. */
  lemma DivideBySelf(x: real)
    requires x != 0.0
    ensures x / x == 1.0
  {
  }

  /** Division by a common divisor distributes over a sum; split out for `SumScaled`. */
  lemma DivideSum(a: real, b: real, t: real)
    requires t != 0.0
    ensures a / t + b / t == (a + b) / t
  {
  }

  /** Summing the scaled widths is the same as scaling the summed widths. */
  lemma {:induction false} SumScaled(ds: seq<Domain>, total: real)
    requires total != 0.0
    ensures Sum(Scaled(ds, total)) == CumulativeSpan(ds) as real / total
  {
    if ds != [] {
      var n := |ds|;
      var front, last := ds[..n - 1], Span(ds[n - 1]) as real;
      var r := Scaled(ds, total);
      SumScaled(front, total);
      assert r[..n - 1] == Scaled(front, total);
      assert r[n - 1] == last / total;
      assert CumulativeSpan(ds) as real == CumulativeSpan(front) as real + last;
      DivideSum(CumulativeSpan(front) as real, last, total);
    }
  }

  /** The ratios of a list with a non-zero cumulative span add up to exactly 1. */
  lemma RatiosSumToOne(ds: seq<Domain>)
    requires CumulativeSpan(ds) != 0
    ensures Sum(Ratios(ds)) == 1.0
  {
    var total := CumulativeSpan(ds) as real;
    SumScaled(ds, total);
    DivideBySelf(total);
  }

  /** With positive widths, each width is positive and at most the cumulative span. */
  lemma {:induction false} SpanWithinCumulative(ds: seq<Domain>, k: int)
    requires AllSpansPositive(ds)
    requires 0 <= k < |ds|
    ensures 0 < Span(ds[k]) <= CumulativeSpan(ds)
  {
    var n := |ds|;
    CumulativeSpanPositive(ds[..n - 1]);
    if k < n - 1 {
      SpanWithinCumulative(ds[..n - 1], k);
    }
  }

  /** With positive widths the cumulative span is never negative, and positive when non-empty. */
  lemma {:induction false} CumulativeSpanPositive(ds: seq<Domain>)
    requires AllSpansPositive(ds)
    ensures ds == [] ==> CumulativeSpan(ds) == 0
    ensures ds != [] ==> CumulativeSpan(ds) > 0
  {
    if ds != [] {
      CumulativeSpanPositive(ds[..|ds| - 1]);
    }
  }

  /** Over positive-width domains the ratios are defined and every ratio lies in (0, 1]. */
  lemma RatiosInUnitInterval(ds: seq<Domain>)
    requires AllSpansPositive(ds)
    ensures RatiosDefined(ds)
    ensures forall i :: 0 <= i < |ds| ==> 0.0 < Ratios(ds)[i] <= 1.0
  {
    CumulativeSpanPositive(ds);
    var total := CumulativeSpan(ds);
    forall i | 0 <= i < |ds|
      ensures 0.0 < Ratios(ds)[i] <= 1.0
    {
      SpanWithinCumulative(ds, i);
      ShareBounds(Span(ds[i]) as real, total as real, Ratios(ds)[i]);
    }
  }

  /** A part `x` of a whole `t`, written as `r * t`, has a factor `r` in (0, 1]. */
  lemma ShareBounds(x: real, t: real, r: real)
    requires 0.0 < x <= t && r * t == x
    ensures 0.0 < r <= 1.0
  {
  }

  /** Ratios are proportional to widths: two domains' ratios compare as their widths do. */
  lemma RatiosProportional(ds: seq<Domain>, i: int, j: int)
    requires RatiosDefined(ds)
    requires 0 <= i < |ds| && 0 <= j < |ds|
    ensures Ratios(ds)[i] * Span(ds[j]) as real == Ratios(ds)[j] * Span(ds[i]) as real
  {
  }
}
