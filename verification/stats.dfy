/** The download-speed statistics printed at the end of a run: average,
    minimum and maximum of the recorded samples, or a "no data" report when
    no download succeeded. Speeds are `real`, so rounding is not modelled. */
module Stats {

  /** Python's `sum(xs)`. */
  function Sum(s: seq<real>): real
  {
    if |s| == 0 then 0.0 else s[0] + Sum(s[1..])
  }

  /** Python's `min(xs)` on a non-empty list. */
  function Min(s: seq<real>): (m: real)
    requires |s| > 0
    ensures m in s
    ensures forall i :: 0 <= i < |s| ==> m <= s[i]
  {
    if |s| == 1 then s[0]
    else
      var rest := Min(s[1..]);
      if s[0] <= rest then s[0] else rest
  }

  /** Python's `max(xs)` on a non-empty list. */
  function Max(s: seq<real>): (m: real)
    requires |s| > 0
    ensures m in s
    ensures forall i :: 0 <= i < |s| ==> s[i] <= m
  {
    if |s| == 1 then s[0]
    else
      var rest := Max(s[1..]);
      if s[0] >= rest then s[0] else rest
  }

  /** `sum(xs) / len(xs)`; the caller guarantees the list is not empty. */
  function Average(s: seq<real>): (a: real)
    requires |s| > 0
    ensures a * (|s| as real) == Sum(s)
  {
    Sum(s) / (|s| as real)
  }

  datatype Summary = NoData | Figures(average: real, minimum: real, maximum: real)

  /** The statistics block of the end-of-run report. */
  function Summarize(s: seq<real>): (r: Summary)
    ensures r.NoData? <==> |s| == 0
    ensures r.Figures? ==> r.minimum <= r.average <= r.maximum
    ensures r.Figures? ==> r.minimum in s && r.maximum in s
    ensures r.Figures? ==> forall i :: 0 <= i < |s| ==> r.minimum <= s[i] <= r.maximum
    ensures r.Figures? ==> r.average == Average(s)
  {
    if |s| == 0 then NoData
    else
      AverageBetweenExtremes(s);
      Figures(Average(s), Min(s), Max(s))
  }

  lemma {:induction false} SumBounds(s: seq<real>, lo: real, hi: real)
    requires forall i :: 0 <= i < |s| ==> lo <= s[i] <= hi
    ensures lo * (|s| as real) <= Sum(s) <= hi * (|s| as real)
  {
    if |s| > 0 {
      SumBounds(s[1..], lo, hi);
    }
  }

  /** The average of a non-empty sample lies between its minimum and maximum. */
  lemma AverageBetweenExtremes(s: seq<real>)
    requires |s| > 0
    ensures Min(s) <= Average(s) <= Max(s)
  {
    AverageWithin(s, Min(s), Max(s));
  }

  /** Any common bound on the samples also bounds their average. */
  lemma AverageWithin(s: seq<real>, lo: real, hi: real)
    requires |s| > 0
    requires forall i :: 0 <= i < |s| ==> lo <= s[i] <= hi
    ensures lo <= Average(s) <= hi
  {
    var n, avg := |s| as real, Average(s);
    SumBounds(s, lo, hi);
    ScaleCancel(lo, avg, n);
    ScaleCancel(avg, hi, n);
  }

  /** Dividing both sides of `x * n <= y * n` by a positive `n`. */
  lemma ScaleCancel(x: real, y: real, n: real)
    requires n > 0.0
    requires x * n <= y * n
    ensures x <= y
  {
  }

  lemma {:induction false} SumConcat(a: seq<real>, b: seq<real>)
    ensures Sum(a + b) == Sum(a) + Sum(b)
  {
    if |a| == 0 {
      assert a + b == b;
    } else {
      assert (a + b)[1..] == a[1..] + b;
      SumConcat(a[1..], b);
    }
  }

  /** Taking one sample out of a sequence takes it out of the sum and out of
      the multiset of samples. */
  lemma RemoveAt(b: seq<real>, j: nat)
    requires j < |b|
    ensures Sum(b) == b[j] + Sum(b[..j] + b[j + 1..])
    ensures multiset(b[..j] + b[j + 1..]) == multiset(b) - multiset{b[j]}
  {
    var left, x, right := b[..j], b[j], b[j + 1..];
    assert b == left + ([x] + right);
    RemoveMiddle(left, x, right);
  }

  lemma RemoveMiddle(left: seq<real>, x: real, right: seq<real>)
    ensures Sum(left + ([x] + right)) == x + Sum(left + right)
    ensures multiset(left + right) == multiset(left + ([x] + right)) - multiset{x}
  {
    SumConcat(left, [x] + right);
    SumConcat([x], right);
    SumConcat(left, right);
  }

  /** The sum does not depend on the order of the samples. */
  lemma {:induction false} SumPermutation(a: seq<real>, b: seq<real>)
    requires multiset(a) == multiset(b)
    ensures Sum(a) == Sum(b)
  {
    if |a| == 0 {
      assert |b| == |multiset(b)| == 0;
    } else {
      var x := a[0];
      assert x in multiset(b);
      var j :| 0 <= j < |b| && b[j] == x;
      RemoveAt(b, j);
      assert a == [x] + a[1..];
      assert multiset(a[1..]) == multiset(a) - multiset{x};
      SumPermutation(a[1..], b[..j] + b[j + 1..]);
    }
  }

  /** The whole summary depends only on the multiset of samples, not on the
      order in which workers appended them. */
  lemma SummaryPermutation(a: seq<real>, b: seq<real>)
    requires multiset(a) == multiset(b)
    ensures Summarize(a) == Summarize(b)
  {
    assert |a| == |multiset(a)| == |multiset(b)| == |b|;
    if |a| > 0 {
      SumPermutation(a, b);
      var ma, mb := Min(a), Min(b);
      assert ma in multiset(b) && mb in multiset(a);
      assert ma == mb;
      var xa, xb := Max(a), Max(b);
      assert xa in multiset(b) && xb in multiset(a);
      assert xa == xb;
    }
  }
}
