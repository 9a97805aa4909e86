/**
 * The two averages of the insights card (components/Insights.tsx): mean
 * sleep hours and mean activity minutes over every entry, or "N/A" when
 * there are none. Arithmetic is exact; the display rounding is not modelled.
 */
module Insights {
  import opened Types

  /** What the card shows: "N/A", or a mean. */
  datatype Average = NotAvailable | Mean(value: real)

  /** The `reduce((s, x) => s + x, 0)` total (the order of summation is immaterial over exact reals). */
  function Sum(xs: seq<real>): real {
    if xs == [] then 0.0 else xs[0] + Sum(xs[1..])
  }

  /** `xs.length > 0 ? total / xs.length : 'N/A'`: the division happens only under the length guard. */
  function MeanOf(xs: seq<real>): (r: Average)
    ensures r.NotAvailable? <==> xs == []
    ensures r.Mean? ==> r.value * (|xs| as real) == Sum(xs)
  {
    if |xs| > 0 then Mean(Sum(xs) / (|xs| as real)) else NotAvailable
  }

  function Hours(sleeps: seq<SleepEntry>): (r: seq<real>)
    ensures |r| == |sleeps|
    ensures forall i :: 0 <= i < |r| ==> r[i] == sleeps[i].hours
  {
    seq(|sleeps|, i requires 0 <= i < |sleeps| => sleeps[i].hours)
  }

  function Minutes(activities: seq<ActivityEntry>): (r: seq<real>)
    ensures |r| == |activities|
    ensures forall i :: 0 <= i < |r| ==> r[i] == activities[i].minutes
  {
    seq(|activities|, i requires 0 <= i < |activities| => activities[i].minutes)
  }

  /** `avgSleep`: "N/A" exactly when there are no sleep entries, else total hours over all of them divided by their count. */
  function AvgSleep(s: AppState): (r: Average)
    ensures r.NotAvailable? <==> |s.sleeps| == 0
    ensures r.Mean? ==> r.value * (|s.sleeps| as real) == Sum(Hours(s.sleeps))
  {
    MeanOf(Hours(s.sleeps))
  }

  /** `avgActivity`: "N/A" exactly when there are no activities, else total minutes over all of them divided by their count. */
  function AvgActivity(s: AppState): (r: Average)
    ensures r.NotAvailable? <==> |s.activities| == 0
    ensures r.Mean? ==> r.value * (|s.activities| as real) == Sum(Minutes(s.activities))
  {
    MeanOf(Minutes(s.activities))
  }

  // ---------------------------------------------------------------------
  // Properties of the mean

  function MinOf(xs: seq<real>): real
    requires xs != []
  {
    if |xs| == 1 then xs[0]
    else var m := MinOf(xs[1..]); if xs[0] <= m then xs[0] else m
  }

  function MaxOf(xs: seq<real>): real
    requires xs != []
  {
    if |xs| == 1 then xs[0]
    else var m := MaxOf(xs[1..]); if xs[0] >= m then xs[0] else m
  }

  /** Every element lies between the smallest and the largest. */
  lemma {:induction false} WithinExtremes(xs: seq<real>, i: nat)
    requires i < |xs|
    ensures MinOf(xs) <= xs[i] <= MaxOf(xs)
  {
    if |xs| > 1 && i > 0 {
      WithinExtremes(xs[1..], i - 1);
    }
  }

  /** A total of values between `lo` and `hi` lies between count times `lo` and count times `hi`. */
  lemma {:induction false} SumBounds(xs: seq<real>, lo: real, hi: real)
    requires forall i :: 0 <= i < |xs| ==> lo <= xs[i] <= hi
    ensures (|xs| as real) * lo <= Sum(xs) <= (|xs| as real) * hi
  {
    if xs != [] {
      SumBounds(xs[1..], lo, hi);
    }
  }

  /** The mean of values between `lo` and `hi` is itself between them. */
  lemma MeanBounds(xs: seq<real>, lo: real, hi: real)
    requires xs != []
    requires forall i :: 0 <= i < |xs| ==> lo <= xs[i] <= hi
    ensures lo <= MeanOf(xs).value <= hi
  {
    SumBounds(xs, lo, hi);
    QuotientBounds(Sum(xs), |xs| as real, lo, hi);
  }

  /** A total between n times `lo` and n times `hi`, divided by n, lies between `lo` and `hi`. */
  lemma QuotientBounds(t: real, n: real, lo: real, hi: real)
    requires n > 0.0 && n * lo <= t <= n * hi
    ensures lo <= t / n <= hi
  {
    DivideBounds(n * lo, t, n * hi, n);
    assert (n * lo) / n == lo && (n * hi) / n == hi;
  }

  /** Dividing by a positive number keeps the order. */
  lemma DivideBounds(a: real, b: real, c: real, n: real)
    requires n > 0.0 && a <= b <= c
    ensures a / n <= b / n <= c / n
  {
    var k := 1.0 / n;
    assert k > 0.0;
    assert a / n == a * k && b / n == b * k && c / n == c * k;
    assert (b - a) * k >= 0.0 && (c - b) * k >= 0.0;
  }

  /** The mean lies between the smallest and the largest value. */
  lemma MeanBetweenExtremes(xs: seq<real>)
    requires xs != []
    ensures MinOf(xs) <= MeanOf(xs).value <= MaxOf(xs)
  {
    forall i | 0 <= i < |xs|
      ensures MinOf(xs) <= xs[i] <= MaxOf(xs)
    {
      WithinExtremes(xs, i);
    }
    MeanBounds(xs, MinOf(xs), MaxOf(xs));
  }

  /** Taking one element out of the total. */
  lemma {:induction false} SumRemoveAt(xs: seq<real>, j: nat)
    requires j < |xs|
    ensures Sum(xs) == xs[j] + Sum(xs[..j] + xs[j + 1..])
  {
    if j > 0 {
      var tail := xs[1..];
      var rest := xs[..j] + xs[j + 1..];
      SumRemoveAt(tail, j - 1);
      assert tail[j - 1] == xs[j];
      assert rest != [] && rest[0] == xs[0];
      assert rest[1..] == tail[..j - 1] + tail[j..];
      assert Sum(rest) == xs[0] + Sum(rest[1..]);
      assert Sum(xs) == xs[0] + Sum(tail);
    } else {
      assert xs[..0] + xs[1..] == xs[1..];
    }
  }

  /** The total depends only on which values occur, not on their order. */
  lemma {:induction false} SumPermutation(xs: seq<real>, ys: seq<real>)
    requires multiset(xs) == multiset(ys)
    ensures Sum(xs) == Sum(ys)
    decreases |xs|
  {
    if xs == [] {
      assert |ys| == |multiset(ys)| == 0;
    } else {
      var x := xs[0];
      assert x in multiset(xs);
      assert x in ys;
      var j :| 0 <= j < |ys| && ys[j] == x;
      var rest := ys[..j] + ys[j + 1..];
      SumRemoveAt(ys, j);
      assert ys == ys[..j] + [x] + ys[j + 1..];
      assert multiset(ys) == multiset(rest) + multiset{x};
      assert xs == [x] + xs[1..];
      assert multiset(xs) == multiset{x} + multiset(xs[1..]);
      assert multiset(xs[1..]) == multiset(xs) - multiset{x};
      assert multiset(rest) == multiset(ys) - multiset{x};
      SumPermutation(xs[1..], rest);
    }
  }

  /** Both averages lie between the smallest and the largest logged value. */
  lemma AveragesWithinExtremes(s: AppState)
    ensures s.sleeps != [] ==>
      MinOf(Hours(s.sleeps)) <= AvgSleep(s).value <= MaxOf(Hours(s.sleeps))
    ensures s.activities != [] ==>
      MinOf(Minutes(s.activities)) <= AvgActivity(s).value <= MaxOf(Minutes(s.activities))
  {
    if s.sleeps != [] {
      MeanBetweenExtremes(Hours(s.sleeps));
    }
    if s.activities != [] {
      MeanBetweenExtremes(Minutes(s.activities));
    }
  }

  /** Both averages depend only on the multiset of logged values, not on the order of the entries. */
  lemma AveragesIgnoreOrder(s: AppState, t: AppState)
    ensures multiset(Hours(s.sleeps)) == multiset(Hours(t.sleeps)) ==> AvgSleep(s) == AvgSleep(t)
    ensures multiset(Minutes(s.activities)) == multiset(Minutes(t.activities)) ==> AvgActivity(s) == AvgActivity(t)
  {
    if multiset(Hours(s.sleeps)) == multiset(Hours(t.sleeps)) {
      SumPermutation(Hours(s.sleeps), Hours(t.sleeps));
      assert |Hours(s.sleeps)| == |multiset(Hours(s.sleeps))| == |Hours(t.sleeps)|;
    }
    if multiset(Minutes(s.activities)) == multiset(Minutes(t.activities)) {
      SumPermutation(Minutes(s.activities), Minutes(t.activities));
      assert |Minutes(s.activities)| == |multiset(Minutes(s.activities))| == |Minutes(t.activities)|;
    }
  }
}
