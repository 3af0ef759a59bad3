/** The summary statistics of the three command-line tools: Go's truncating
    integer division, sums, `calculateMedian` and the integer means. Go's
    `time.Duration` is a 64-bit count of nanoseconds; here it is an `int`. */
module Stats {
  import opened Wrappers
  import opened Sorting

  /** Go's `/` on integers, for a positive divisor: the quotient truncated
      toward zero (Dafny's own `/` rounds toward negative infinity). */
  function GoDiv(a: int, b: int): (q: int)
    requires b > 0
    ensures a >= 0 ==> 0 <= a - q * b < b
    ensures a < 0 ==> -b < a - q * b <= 0
  {
    if a >= 0 then a / b else -((-a) / b)
  }

  function Sum(s: seq<int>): int {
    if |s| == 0 then 0 else Sum(s[..|s| - 1]) + s[|s| - 1]
  }

  lemma SumAppend(s: seq<int>, x: int)
    ensures Sum(s + [x]) == Sum(s) + x
  {
    assert (s + [x])[..|s|] == s;
  }

  /** A sum of values that all lie in `[lo, hi]` lies in `[n * lo, n * hi]`. */
  lemma {:induction false} SumBounds(s: seq<int>, lo: int, hi: int)
    requires forall i :: 0 <= i < |s| ==> lo <= s[i] <= hi
    ensures |s| * lo <= Sum(s) <= |s| * hi
  {
    if |s| > 0 {
      SumBounds(s[..|s| - 1], lo, hi);
      assert (|s| - 1) * lo + lo == |s| * lo;
      assert (|s| - 1) * hi + hi == |s| * hi;
    }
  }

  /** A truncated quotient of a total lying in `[n * lo, n * hi]` lies in
      `[lo, hi]`. */
  lemma GoDivBounds(total: int, n: int, lo: int, hi: int)
    requires n > 0 && n * lo <= total <= n * hi
    ensures lo <= GoDiv(total, n) <= hi
  {
    var q := GoDiv(total, n);
    if total >= 0 {
      assert (q + 1) * n > total >= n * lo;
      assert q * n <= total <= n * hi;
    } else {
      assert (q - 1) * n < total <= n * hi;
      assert q * n >= total >= n * lo;
    }
    MulCancel(q + 1, lo, n);
    MulCancel(hi + 1, q, n);
  }

  /** Multiplying by a positive `n` keeps `a <= b`. */
  lemma MulCancel(a: int, b: int, n: int)
    requires n > 0
    ensures a * n <= b * n || a > b
  {
    if a <= b {
      assert a * n <= b * n by {
        assert (b - a) * n >= 0;
      }
    }
  }

  /** The median of values sorted ascending: 0 for none, the middle value
      for an odd count, the truncated average of the two middle values for
      an even count. */
  function MedianOfSorted(s: seq<int>): (m: int)
    ensures |s| == 0 ==> m == 0
    ensures |s| % 2 == 1 ==> m == s[|s| / 2]
  {
    if |s| == 0 then 0
    else if |s| % 2 != 0 then s[|s| / 2]
    else GoDiv(s[|s| / 2 - 1] + s[|s| / 2], 2)
  }

  /** The median of a non-empty sample lies between its least and its
      greatest value. */
  lemma MedianBounds(s: seq<int>)
    requires |s| > 0 && SortedBy(s, Identity, false)
    ensures s[0] <= MedianOfSorted(s) <= s[|s| - 1]
  {
    var n := |s|;
    var lo, hi := s[0], s[n - 1];
    if n % 2 == 0 {
      assert Identity(s[0]) <= Identity(s[n / 2 - 1]);
      assert Identity(s[n / 2]) <= Identity(s[n - 1]);
      GoDivBounds(s[n / 2 - 1] + s[n / 2], 2, lo, hi);
    } else {
      assert Identity(s[0]) <= Identity(s[n / 2]) <= Identity(s[n - 1]);
    }
  }

  /** The median depends only on the values, not on the order they came
      in: two sorted arrangements of the same values have the same median. */
  lemma MedianIgnoresOrder(a: seq<int>, b: seq<int>)
    requires SortedBy(a, Identity, false) && SortedBy(b, Identity, false)
    requires multiset(a) == multiset(b)
    ensures MedianOfSorted(a) == MedianOfSorted(b)
  {
    SortedPermutationUnique(a, b, false);
  }

  /** `calculateMedian`: sorts the caller's slice in place and takes the
      median of the result. */
  method CalculateMedian(durations: array<int>) returns (median: int)
    modifies durations
    ensures multiset(durations[..]) == multiset(old(durations[..]))
    ensures SortedBy(durations[..], Identity, false)
    ensures median == MedianOfSorted(durations[..])
  {
    var n := durations.Length;
    if n == 0 {
      return 0;
    }
    SortBy(durations, Identity, false);
    if n % 2 != 0 {
      return durations[n / 2];
    }
    var mid1 := durations[n / 2 - 1];
    var mid2 := durations[n / 2];
    return GoDiv(mid1 + mid2, 2);
  }

  /** An integer mean: the total over the count, truncated. */
  function Mean(total: int, count: int): int
    requires count > 0
  {
    GoDiv(total, count)
  }

  /** The mean of a non-empty sample lies between its least and its greatest
      value. */
  lemma MeanBounds(s: seq<int>, lo: int, hi: int)
    requires |s| > 0
    requires forall i :: 0 <= i < |s| ==> lo <= s[i] <= hi
    ensures lo <= Mean(Sum(s), |s|) <= hi
  {
    SumBounds(s, lo, hi);
    GoDivBounds(Sum(s), |s|, lo, hi);
  }

  /** The greatest value of a non-empty sample. */
  function Max(s: seq<int>): (m: int)
    requires |s| > 0
    ensures forall i :: 0 <= i < |s| ==> s[i] <= m
    ensures exists i :: 0 <= i < |s| && s[i] == m
  {
    if |s| == 1 then s[0]
    else
      var m := Max(s[..|s| - 1]);
      assert forall i :: 0 <= i < |s| - 1 ==> s[..|s| - 1][i] == s[i];
      if s[|s| - 1] > m then s[|s| - 1] else m
  }

  /** What a summary of one sample shows: its size, mean and median. */
  datatype Summary = Summary(count: int, mean: int, median: int)

  /** `r` is the summary of `samples`: none for an empty sample, else its
      size, its truncated mean and the median of its values sorted. */
  ghost predicate SummaryOf(r: Option<Summary>, samples: seq<int>) {
    (r.None? <==> |samples| == 0)
    && (r.Some? ==> r.value.count == |samples| && r.value.mean == Mean(Sum(samples), |samples|))
    && (r.Some? ==> exists sorted: seq<int> ::
          (SortedBy(sorted, Identity, false) && multiset(sorted) == multiset(samples)
           && r.value.median == MedianOfSorted(sorted)))
  }

  /** The summary of a sample lies within the sample: mean and median
      between its least and greatest value. */
  lemma SummaryWithinSample(r: Option<Summary>, samples: seq<int>, lo: int, hi: int)
    requires SummaryOf(r, samples)
    requires forall i :: 0 <= i < |samples| ==> lo <= samples[i] <= hi
    ensures r.Some? ==> lo <= r.value.mean <= hi && lo <= r.value.median <= hi
  {
    if r.Some? {
      MeanBounds(samples, lo, hi);
      var sorted: seq<int> :| SortedBy(sorted, Identity, false) && multiset(sorted) == multiset(samples)
                               && r.value.median == MedianOfSorted(sorted);
      assert |sorted| == |multiset(samples)| == |samples|;
      MedianBounds(sorted);
      assert sorted[0] in multiset(samples) && sorted[|sorted| - 1] in multiset(samples);
    }
  }

  /** The summary of a sample of positive durations shows positive ones. */
  lemma PositiveSummary(r: Option<Summary>, samples: seq<int>)
    requires SummaryOf(r, samples)
    requires forall i :: 0 <= i < |samples| ==> samples[i] > 0
    ensures r.Some? ==> r.value.mean > 0 && r.value.median > 0
  {
    if |samples| > 0 {
      SummaryWithinSample(r, samples, 1, Max(samples));
    }
  }

  /** One "mean and median" block: computed only for a non-empty sample. */
  method Summarize(samples: seq<int>, total: int) returns (r: Option<Summary>)
    requires total == Sum(samples)
    ensures SummaryOf(r, samples)
  {
    if |samples| == 0 {
      return None;
    }
    var mean := GoDiv(total, |samples|);
    var a := new int[|samples|](i requires 0 <= i < |samples| => samples[i]);
    assert a[..] == samples;
    var median := CalculateMedian(a);
    r := Some(Summary(|samples|, mean, median));
  }
}
