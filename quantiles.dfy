/**
 * The statistical layer's shared primitive: linear-interpolation quantiles
 * over the sorted series (pandas' default), and the IQR envelope
 * lower = Q1 - k*IQR, upper = Q3 + k*IQR.
 */
module Quantiles {
  import opened Anomalies

  predicate Sorted(s: seq<real>) {
    forall i, j :: 0 <= i < j < |s| ==> s[i] <= s[j]
  }

  /** Every value of s is at least lo. */
  predicate AllAtLeast(s: seq<real>, lo: real) {
    forall i :: 0 <= i < |s| ==> lo <= s[i]
  }

  lemma AtLeastByMultiset(s: seq<real>, t: seq<real>, lo: real)
    requires AllAtLeast(t, lo) && multiset(s) <= multiset(t)
    ensures AllAtLeast(s, lo)
  {
    forall i | 0 <= i < |s| ensures lo <= s[i] {
      assert s[i] in multiset(s);
      assert s[i] in multiset(t);
      var j :| 0 <= j < |t| && t[j] == s[i];
    }
  }

  function Insert(x: real, s: seq<real>): (r: seq<real>)
    requires Sorted(s)
    ensures Sorted(r) && multiset(r) == multiset(s) + multiset{x}
  {
    if s == [] then [x]
    else if x <= s[0] then [x] + s
    else
      var tail := s[1..];
      var rest := Insert(x, tail);
      assert s == [s[0]] + tail;
      InsertBehindHead(s[0], tail, x, rest);
      [s[0]] + rest
  }

  /** Inserting behind a smaller head keeps the head first and the list sorted. */
  lemma InsertBehindHead(h: real, tail: seq<real>, x: real, rest: seq<real>)
    requires Sorted([h] + tail) && h < x
    requires Sorted(rest) && multiset(rest) == multiset(tail) + multiset{x}
    ensures Sorted([h] + rest) && multiset([h] + rest) == multiset([h] + tail) + multiset{x}
  {
    assert AllAtLeast(tail + [x], h) by {
      forall i | 0 <= i < |tail + [x]| ensures h <= (tail + [x])[i] {
        if i < |tail| {
          assert (tail + [x])[i] == ([h] + tail)[i + 1];
          assert ([h] + tail)[0] == h;
        }
      }
    }
    assert multiset(rest) == multiset(tail + [x]);
    AtLeastByMultiset(rest, tail + [x], h);
    assert multiset([h] + rest) == multiset{h} + multiset(rest);
    assert multiset([h] + tail) == multiset{h} + multiset(tail);
  }

  /** The values of a series in ascending order. */
  function SortReals(xs: seq<real>): (r: seq<real>)
    ensures Sorted(r) && multiset(r) == multiset(xs)
  {
    if xs == [] then []
    else
      assert xs == [xs[0]] + xs[1..];
      Insert(xs[0], SortReals(xs[1..]))
  }

  /** Two sorted arrangements of the same values are the same sequence. */
  lemma {:induction false} SortedUnique(a: seq<real>, b: seq<real>)
    requires Sorted(a) && Sorted(b) && multiset(a) == multiset(b)
    ensures a == b
  {
    assert |a| == |multiset(a)| == |multiset(b)| == |b|;
    if a != [] {
      SortedHeadsEqual(a, b);
      TailMultiset(a);
      TailMultiset(b);
      SortedUnique(a[1..], b[1..]);
      assert a == [a[0]] + a[1..] && b == [b[0]] + b[1..];
    }
  }

  lemma SortedHeadsEqual(a: seq<real>, b: seq<real>)
    requires Sorted(a) && Sorted(b) && multiset(a) == multiset(b) && a != [] && b != []
    ensures a[0] == b[0]
  {
    AtLeastByMultiset(b, a, a[0]);
    AtLeastByMultiset(a, b, b[0]);
  }

  lemma TailMultiset(a: seq<real>)
    requires a != []
    ensures multiset(a[1..]) == multiset(a) - multiset{a[0]}
  {
    assert a == [a[0]] + a[1..];
    assert multiset(a) == multiset{a[0]} + multiset(a[1..]);
  }

  lemma SortSorted(xs: seq<real>)
    requires Sorted(xs)
    ensures SortReals(xs) == xs
  {
    SortedUnique(SortReals(xs), xs);
  }

  /** Proof helper with no counterpart in the source: a product of non-negatives. */
  lemma MulNonneg(x: real, y: real)
    requires x >= 0.0 && y >= 0.0
    ensures x * y >= 0.0
  {
  }

  lemma MulMonotone(t1: real, t2: real, d: real)
    requires t1 <= t2 && d >= 0.0
    ensures t1 * d <= t2 * d
  {
    MulNonneg(t2 - t1, d);
    assert (t2 - t1) * d == t2 * d - t1 * d;
  }

  /** a + t*(b - a): the point a fraction t of the way from a to b. */
  function Lerp(a: real, b: real, t: real): real {
    a + t * (b - a)
  }

  lemma LerpBetween(a: real, b: real, t: real)
    requires a <= b && 0.0 <= t <= 1.0
    ensures a <= Lerp(a, b, t) <= b
  {
    MulMonotone(0.0, t, b - a);
    MulMonotone(t, 1.0, b - a);
  }

  lemma LerpMonotone(a: real, b: real, t1: real, t2: real)
    requires a <= b && t1 <= t2
    ensures Lerp(a, b, t1) <= Lerp(a, b, t2)
  {
    MulMonotone(t1, t2, b - a);
  }

  /** The virtual index q*(n-1) of quantile q in a series of n values. */
  function Position(q: real, n: nat): (pos: real)
    requires 0.0 <= q <= 1.0 && n > 0
    ensures 0.0 <= pos <= (n - 1) as real
  {
    var d := (n - 1) as real;
    MulNonneg(q, d);
    MulNonneg(1.0 - q, d);
    assert (1.0 - q) * d == d - q * d;
    q * d
  }

  lemma PositionMonotone(q1: real, q2: real, n: nat)
    requires 0.0 <= q1 <= q2 <= 1.0 && n > 0
    ensures Position(q1, n) <= Position(q2, n)
  {
    MulMonotone(q1, q2, (n - 1) as real);
  }

  lemma FloorMonotone(x: real, y: real)
    requires x <= y
    ensures x.Floor <= y.Floor
  {
  }

  /**
   * The q-quantile of a sorted series: at virtual index q*(n-1), interpolate
   * linearly between the two neighbouring values.
   */
  function QuantileOfSorted(s: seq<real>, q: real): real
    requires |s| > 0 && 0.0 <= q <= 1.0
  {
    var pos := Position(q, |s|);
    var lo := pos.Floor;
    if lo + 1 < |s| then Lerp(s[lo], s[lo + 1], pos - lo as real) else s[lo]
  }

  /** Series.quantile(q). */
  function Quantile(xs: seq<real>, q: real): real
    requires |xs| > 0 && 0.0 <= q <= 1.0
  {
    QuantileOfSorted(SortReals(xs), q)
  }

  /** A quantile lies between the sorted neighbours of its virtual index. */
  lemma QuantileBracket(s: seq<real>, q: real)
    requires |s| > 0 && 0.0 <= q <= 1.0 && Sorted(s)
    ensures var lo := Position(q, |s|).Floor;
            0 <= lo < |s| && s[lo] <= QuantileOfSorted(s, q)
            && (lo + 1 < |s| ==> QuantileOfSorted(s, q) <= s[lo + 1])
            && (lo + 1 >= |s| ==> QuantileOfSorted(s, q) == s[lo])
  {
    var pos := Position(q, |s|);
    var lo := pos.Floor;
    if lo + 1 < |s| {
      LerpBetween(s[lo], s[lo + 1], pos - lo as real);
    }
  }

  /** A quantile lies within the range of the series. */
  lemma QuantileBetween(s: seq<real>, q: real)
    requires |s| > 0 && 0.0 <= q <= 1.0 && Sorted(s)
    ensures s[0] <= QuantileOfSorted(s, q) <= s[|s| - 1]
  {
    QuantileBracket(s, q);
  }

  /** A larger q never gives a smaller quantile. */
  lemma QuantileMonotone(s: seq<real>, q1: real, q2: real)
    requires |s| > 0 && 0.0 <= q1 <= q2 <= 1.0 && Sorted(s)
    ensures QuantileOfSorted(s, q1) <= QuantileOfSorted(s, q2)
  {
    var n := |s|;
    var pos1 := Position(q1, n);
    var pos2 := Position(q2, n);
    PositionMonotone(q1, q2, n);
    FloorMonotone(pos1, pos2);
    var lo1 := pos1.Floor;
    var lo2 := pos2.Floor;
    QuantileBracket(s, q1);
    QuantileBracket(s, q2);
    if lo1 == lo2 && lo1 + 1 < n {
      LerpMonotone(s[lo1], s[lo1 + 1], pos1 - lo1 as real, pos2 - lo2 as real);
    }
  }

  /** The IQR multiplier used when none is given. */
  const DefaultMultiplier: real := 2.0

  /** _calculate_iqr_bounds: (lower, upper, Q1, Q3, IQR) of a series. */
  function IqrBounds(xs: seq<real>, k: real): (b: Bounds)
    requires |xs| > 0
  {
    Envelope(Quantile(xs, 0.25), Quantile(xs, 0.75), k)
  }

  /** The envelope lower = Q1 - k*IQR, upper = Q3 + k*IQR around the quartiles. */
  function Envelope(q1: real, q3: real, k: real): Bounds
  {
    var iqr := q3 - q1;
    Bounds(q1 - k * iqr, q3 + k * iqr, q1, q3, iqr)
  }

  /** Ordered quartiles and a non-negative multiplier give lower <= Q1 <= Q3 <= upper. */
  lemma EnvelopeOrdered(q1: real, q3: real, k: real)
    requires q1 <= q3 && k >= 0.0
    ensures var b := Envelope(q1, q3, k);
            b.iqr >= 0.0 && b.lower <= b.q1 <= b.q3 <= b.upper
  {
    MulNonneg(k, q3 - q1);
  }

  /** Outside the envelope, strictly. */
  predicate IsOutlier(x: real, b: Bounds) {
    x < b.lower || x > b.upper
  }

  /**
   * Q1 and Q3 are values within the range of the series with Q1 <= Q3, the
   * IQR is their non-negative difference, and for a non-negative multiplier
   * lower <= Q1 <= Q3 <= upper, so no value between the quartiles is ever an
   * outlier.
   */
  lemma IqrBoundsOrdered(xs: seq<real>, k: real)
    requires |xs| > 0 && k >= 0.0
    ensures var b := IqrBounds(xs, k); var s := SortReals(xs);
            s[0] <= b.q1 <= b.q3 <= s[|s| - 1] && b.iqr >= 0.0
            && b.lower <= b.q1 && b.q3 <= b.upper
            && forall x :: b.q1 <= x <= b.q3 ==> !IsOutlier(x, b)
  {
    var s := SortReals(xs);
    QuantileBetween(s, 0.25);
    QuantileBetween(s, 0.75);
    QuantileMonotone(s, 0.25, 0.75);
    EnvelopeOrdered(Quantile(xs, 0.25), Quantile(xs, 0.75), k);
  }

  /** The bounds depend only on the values of the series, not on their order. */
  lemma IqrBoundsOrderInsensitive(xs: seq<real>, ys: seq<real>, k: real)
    requires |xs| > 0 && multiset(xs) == multiset(ys)
    ensures |ys| > 0 && IqrBounds(xs, k) == IqrBounds(ys, k)
  {
    assert |xs| == |multiset(xs)| == |multiset(ys)| == |ys|;
    SortedUnique(SortReals(xs), SortReals(ys));
    assert Quantile(xs, 0.25) == Quantile(ys, 0.25);
    assert Quantile(xs, 0.75) == Quantile(ys, 0.75);
  }

  /** A sorted nine-value series with 100, 110 at positions 2, 3 and 120, 120 at 6, 7 has Q1 = 100 and Q3 = 120. */
  lemma ConcreteQuartiles(xs: seq<real>)
    requires Sorted(xs) && |xs| == 9
    requires xs[2] == 100.0 && xs[3] == 110.0 && xs[6] == 120.0 && xs[7] == 120.0
    ensures Quantile(xs, 0.25) == 100.0 && Quantile(xs, 0.75) == 120.0
  {
    SortSorted(xs);
    LowerQuartileAt(xs);
    UpperQuartileAt(xs);
  }

  lemma LowerQuartileAt(s: seq<real>)
    requires |s| == 9 && s[2] == 100.0 && s[3] == 110.0
    ensures QuantileOfSorted(s, 0.25) == 100.0
  {
    assert Position(0.25, 9) == 2.0 && (2.0).Floor == 2;
  }

  lemma UpperQuartileAt(s: seq<real>)
    requires |s| == 9 && s[6] == 120.0 && s[7] == 120.0
    ensures QuantileOfSorted(s, 0.75) == 120.0
  {
    assert Position(0.75, 9) == 6.0 && (6.0).Floor == 6;
  }

  /** With Q1 = 100 and Q3 = 120 the upper bound is 160, so 300 is an outlier. */
  lemma OutlierAboveUpperBound(xs: seq<real>)
    requires xs == [100.0, 100.0, 100.0, 110.0, 110.0, 120.0, 120.0, 120.0, 300.0]
    ensures var b := IqrBounds(xs, DefaultMultiplier);
            b == Bounds(60.0, 160.0, 100.0, 120.0, 20.0) && IsOutlier(300.0, b)
  {
    assert Sorted(xs);
    ConcreteQuartiles(xs);
  }

  /** The same series with 150 in place of 300: 150 lies below the upper bound 160 and is not flagged. */
  lemma NoOutlierBelowUpperBound(xs: seq<real>)
    requires xs == [100.0, 100.0, 100.0, 110.0, 110.0, 120.0, 120.0, 120.0, 150.0]
    ensures var b := IqrBounds(xs, DefaultMultiplier);
            b.upper == 160.0 && !IsOutlier(150.0, b)
  {
    assert Sorted(xs);
    ConcreteQuartiles(xs);
  }
}
