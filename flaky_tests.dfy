/** The `flaky-tests` command (`cmd/flaky-tests/main.go`): the summary it
    prints below the list of flaky tests. Printing itself is not part of the
    model; each method returns what would be shown. Go's `float64` mean and
    median are exact reals here. */
module FlakyTests {
  import opened Wrappers
  import opened Sorting
  import opened Stats
  import opened CircleCI

  /** The flakiness counts of the results, in order. */
  function FlakinessValues(results: seq<FlakyTestMetric>): (v: seq<int>)
    ensures |v| == |results|
  {
    if |results| == 0 then []
    else FlakinessValues(results[..|results| - 1]) + [results[|results| - 1].timesFlaky]
  }

  lemma {:induction false} FlakinessValuesAt(results: seq<FlakyTestMetric>)
    ensures forall i :: 0 <= i < |results| ==> FlakinessValues(results)[i] == results[i].timesFlaky
  {
    if |results| > 0 {
      FlakinessValuesAt(results[..|results| - 1]);
    }
  }

  /** The median of a non-empty sorted sample as a real: the middle value, or
      the exact average of the two middle values. */
  function RealMedian(s: seq<int>): real
    requires |s| > 0
  {
    var n := |s|;
    if n % 2 == 0 then (s[n / 2 - 1] + s[n / 2]) as real / 2.0 else s[n / 2] as real
  }

  /** The median of a sorted sample lies between its first and last value. */
  lemma RealMedianBounds(s: seq<int>)
    requires |s| > 0 && SortedBy(s, Identity, false)
    ensures s[0] as real <= RealMedian(s) <= s[|s| - 1] as real
  {
    var n := |s|;
    if n % 2 == 0 {
      assert Identity(s[0]) <= Identity(s[n / 2 - 1]);
      assert Identity(s[n / 2]) <= Identity(s[n - 1]);
    } else {
      assert Identity(s[0]) <= Identity(s[n / 2]) <= Identity(s[n - 1]);
    }
  }

  /** What the summary shows: the number of tests, the total flakiness, its
      mean and median per test, and the largest and smallest count. */
  datatype FlakySummary = FlakySummary(tests: int, total: int, mean: real, median: real, most: int, least: int)

  /** `r` is the summary of `results`: none for no results; otherwise the
      total and mean of the counts, and the median, largest and smallest
      count read off the counts sorted ascending. */
  ghost predicate FlakySummaryOf(r: Option<FlakySummary>, results: seq<FlakyTestMetric>) {
    var v := FlakinessValues(results);
    (r.None? <==> |results| == 0)
    && (r.Some? ==>
          r.value.tests == |results| && r.value.total == Sum(v)
          && r.value.mean == Sum(v) as real / |v| as real
          && exists sorted: seq<int> ::
               (|sorted| == |v| && SortedBy(sorted, Identity, false) && multiset(sorted) == multiset(v)
                && r.value.median == RealMedian(sorted)
                && r.value.most == sorted[|sorted| - 1] && r.value.least == sorted[0]))
  }

  /** The counting loop of `printSummaryStatistics`. */
  method CollectFlakiness(results: seq<FlakyTestMetric>) returns (values: seq<int>, total: int)
    ensures values == FlakinessValues(results) && total == Sum(values)
  {
    values, total := [], 0;
    var i := 0;
    while i < |results|
      invariant 0 <= i <= |results|
      invariant values == FlakinessValues(results[..i]) && total == Sum(values)
    {
      assert results[..i + 1][..i] == results[..i];
      SumAppend(values, results[i].timesFlaky);
      total := total + results[i].timesFlaky;
      values := values + [results[i].timesFlaky];
      i := i + 1;
    }
    assert results[..|results|] == results;
  }

  /** `printSummaryStatistics`: nothing for no results; otherwise the counts
      are summed, sorted ascending, and their median, last and first taken. */
  method SummaryStatistics(results: seq<FlakyTestMetric>) returns (r: Option<FlakySummary>)
    ensures FlakySummaryOf(r, results)
  {
    if |results| == 0 {
      return None;
    }
    var values, total := CollectFlakiness(results);
    var mean := total as real / |results| as real;
    var sorted := SortedCopy(values);
    var median := MedianOfCounts(sorted);
    r := Some(FlakySummary(|results|, total, mean, median, sorted[|sorted| - 1], sorted[0]));
    assert |sorted| == |values| && SortedBy(sorted, Identity, false) && multiset(sorted) == multiset(values);
  }

  /** The median block of `printSummaryStatistics`. */
  method MedianOfCounts(sorted: seq<int>) returns (median: real)
    requires |sorted| > 0
    ensures median == RealMedian(sorted)
  {
    var n := |sorted|;
    if n % 2 == 0 {
      median := (sorted[n / 2 - 1] + sorted[n / 2]) as real / 2.0;
    } else {
      median := sorted[n / 2] as real;
    }
  }

  /** `slices.Sort` on a copy of the counts. */
  method SortedCopy(values: seq<int>) returns (sorted: seq<int>)
    ensures |sorted| == |values| && SortedBy(sorted, Identity, false) && multiset(sorted) == multiset(values)
  {
    var a := new int[|values|](k requires 0 <= k < |values| => values[k]);
    assert a[..] == values;
    SortBy(a, Identity, false);
    sorted := a[..];
    assert |multiset(sorted)| == |multiset(values)|;
  }

  /** The largest and smallest counts shown are the largest and smallest
      flakiness of any result, and the mean and median lie between them. */
  lemma SummaryBounds(r: Option<FlakySummary>, results: seq<FlakyTestMetric>)
    requires FlakySummaryOf(r, results)
    ensures r.Some? ==>
              (forall i :: 0 <= i < |results| ==> r.value.least <= results[i].timesFlaky <= r.value.most)
              && (exists i :: 0 <= i < |results| && results[i].timesFlaky == r.value.most)
              && (exists i :: 0 <= i < |results| && results[i].timesFlaky == r.value.least)
              && r.value.least as real <= r.value.median <= r.value.most as real
              && r.value.least as real <= r.value.mean <= r.value.most as real
  {
    if r.Some? {
      var v := FlakinessValues(results);
      FlakinessValuesAt(results);
      var sorted: seq<int> :| |sorted| == |v| && SortedBy(sorted, Identity, false) && multiset(sorted) == multiset(v)
                               && r.value.median == RealMedian(sorted)
                               && r.value.most == sorted[|sorted| - 1] && r.value.least == sorted[0];
      var lo, hi := sorted[0], sorted[|sorted| - 1];
      SortedEnds(v, sorted);
      RealMedianBounds(sorted);
      SumBounds(v, lo, hi);
      MeanOfBounded(Sum(v), |v|, lo, hi);
    }
  }

  /** The first and last of a sorted arrangement of `v` are the least and
      the greatest value of `v`. */
  lemma SortedEnds(v: seq<int>, sorted: seq<int>)
    requires |sorted| > 0 && SortedBy(sorted, Identity, false) && multiset(sorted) == multiset(v)
    ensures forall i :: 0 <= i < |v| ==> sorted[0] <= v[i] <= sorted[|sorted| - 1]
    ensures sorted[0] in v && sorted[|sorted| - 1] in v
  {
    forall i | 0 <= i < |v|
      ensures sorted[0] <= v[i] <= sorted[|sorted| - 1]
    {
      assert v[i] in multiset(sorted);
      var j :| 0 <= j < |sorted| && sorted[j] == v[i];
      assert j == 0 || Identity(sorted[0]) <= Identity(sorted[j]);
      assert j == |sorted| - 1 || Identity(sorted[j]) <= Identity(sorted[|sorted| - 1]);
    }
    assert sorted[0] in multiset(v) && sorted[|sorted| - 1] in multiset(v);
  }

  /** Dividing a total in `[n * lo, n * hi]` by `n` gives a value in
      `[lo, hi]`. */
  lemma MeanOfBounded(total: int, n: int, lo: int, hi: int)
    requires n > 0 && n * lo <= total <= n * hi
    ensures lo as real <= total as real / n as real <= hi as real
  {
    assert (n * lo) as real == n as real * lo as real;
    assert (n * hi) as real == n as real * hi as real;
  }

  /** `printResults`: "No flaky tests found" and nothing more for an empty
      list; otherwise the summary of the list. */
  method PrintResults(results: seq<FlakyTestMetric>) returns (r: Option<FlakySummary>)
    ensures r.None? <==> |results| == 0
    ensures FlakySummaryOf(r, results)
  {
    if |results| == 0 {
      return None;
    }
    r := SummaryStatistics(results);
  }
}
