/** The robust statistics behind outlier rejection (src/scanner/mathx.py:14-44). */
module RobustStats {
  import opened Prelude

  /** The values in ascending order. */
  function Sorted(values: seq<real>): (r: seq<real>)
    ensures |r| == |values|
  {
    if values == [] then [] else InsertSorted(values[0], Sorted(values[1..]))
  }

  function InsertSorted(x: real, sorted: seq<real>): (r: seq<real>)
    ensures |r| == |sorted| + 1
  {
    if sorted == [] || x <= sorted[0] then [x] + sorted else [sorted[0]] + InsertSorted(x, sorted[1..])
  }

  ghost predicate Ascending(s: seq<real>) {
    forall i, j :: 0 <= i <= j < |s| ==> s[i] <= s[j]
  }

  lemma {:induction false} InsertKeepsValues(x: real, s: seq<real>)
    ensures multiset(InsertSorted(x, s)) == multiset(s) + multiset{x}
    decreases |s|
  {
    if s != [] && x > s[0] {
      InsertKeepsValues(x, s[1..]);
      assert s == [s[0]] + s[1..];
    }
  }

  lemma AscendingFrom(head: real, rest: seq<real>)
    requires Ascending(rest) && forall k :: 0 <= k < |rest| ==> head <= rest[k]
    ensures Ascending([head] + rest)
  {
  }

  lemma {:induction false} InsertSortedIsSorted(x: real, s: seq<real>)
    requires Ascending(s)
    ensures Ascending(InsertSorted(x, s)) && multiset(InsertSorted(x, s)) == multiset(s) + multiset{x}
    decreases |s|
  {
    InsertKeepsValues(x, s);
    if s != [] && x > s[0] {
      var rest := InsertSorted(x, s[1..]);
      InsertSortedIsSorted(x, s[1..]);
      forall k | 0 <= k < |rest| ensures s[0] <= rest[k] {
        assert rest[k] in multiset(rest);
      }
      AscendingFrom(s[0], rest);
    } else {
      AscendingFrom(x, s);
    }
  }

  lemma {:induction false} SortedIsSorted(values: seq<real>)
    ensures Ascending(Sorted(values)) && multiset(Sorted(values)) == multiset(values)
  {
    if values != [] {
      SortedIsSorted(values[1..]);
      InsertSortedIsSorted(values[0], Sorted(values[1..]));
      assert values == [values[0]] + values[1..];
    }
  }

  /** The middle value, or the mean of the two middle values. */
  function MiddleOf(s: seq<real>): real {
    if s == [] then 0.0
    else if |s| % 2 == 1 then s[|s| / 2]
    else (s[|s| / 2 - 1] + s[|s| / 2]) / 2.0
  }

  function Median(values: seq<real>): real {
    MiddleOf(Sorted(values))
  }

  function Deviations(values: seq<real>, med: real): (r: seq<real>)
    ensures |r| == |values| && forall i :: 0 <= i < |r| ==> r[i] == AbsReal(values[i] - med)
  {
    if values == [] then [] else [AbsReal(values[0] - med)] + Deviations(values[1..], med)
  }

  /** Median absolute deviation. */
  function Mad(values: seq<real>, med: real): real {
    Median(Deviations(values, med))
  }

  predicate IsMadOutlier(value: real, window: seq<real>, k: real) {
    if |window| < 3 then false
    else
      var med := Median(window);
      var dispersion := Mad(window, med);
      if dispersion == 0.0 then value != med else AbsReal(value - med) > k * dispersion
  }

  function PctDeviation(value: real, reference: real): real {
    if reference == 0.0 then 0.0 else AbsReal(value - reference) / reference * 100.0
  }

  /** A deviation in percent exceeds a limit exactly when the value lies outside that share of the reference. */
  lemma DeviationIff(value: real, reference: real, limit: real)
    requires reference > 0.0
    ensures PctDeviation(value, reference) > limit
            <==> value > reference + reference * limit / 100.0 || value < reference - reference * limit / 100.0
  {
    var x := AbsReal(value - reference) / reference;
    assert x * reference == AbsReal(value - reference);
    var gap := x - limit / 100.0;
    assert gap * reference == AbsReal(value - reference) - reference * limit / 100.0;
    assert gap > 0.0 <==> gap * reference > 0.0;
  }

  // ── majorities ──

  /** More than half of the values are m. */
  ghost predicate Majority(values: seq<real>, m: real) {
    2 * multiset(values)[m] > |values|
  }

  lemma {:induction false} CountAtMost(s: seq<real>, m: real)
    ensures multiset(s)[m] <= |s|
    ensures m !in s ==> multiset(s)[m] == 0
    ensures multiset(s)[m] == |s| ==> forall i :: 0 <= i < |s| ==> s[i] == m
  {
    if s != [] {
      assert s == [s[0]] + s[1..];
      CountAtMost(s[1..], m);
    }
  }

  lemma CountSplit(s: seq<real>, m: real, i: nat)
    requires i < |s|
    ensures multiset(s)[m] == multiset(s[..i])[m] + (if s[i] == m then 1 else 0) + multiset(s[i + 1..])[m]
  {
    assert s == s[..i] + [s[i]] + s[i + 1..];
    assert multiset([s[i]])[m] == if s[i] == m then 1 else 0;
  }

  /** In ascending order, a position below (above) m leaves room for m only behind (before) it. */
  lemma CountBeyond(s: seq<real>, m: real, i: nat)
    requires Ascending(s) && i < |s|
    ensures s[i] < m ==> multiset(s)[m] <= |s| - i - 1
    ensures s[i] > m ==> multiset(s)[m] <= i
  {
    CountSplit(s, m, i);
    CountAtMost(s[..i], m);
    CountAtMost(s[i + 1..], m);
  }

  /** In ascending order a majority value covers every position next to the middle. */
  lemma MajorityCoversMiddle(s: seq<real>, m: real, i: nat)
    requires Ascending(s) && Majority(s, m)
    requires i < |s| && (2 * i == |s| || 2 * i + 1 == |s| || 2 * i + 2 == |s|)
    ensures s[i] == m
  {
    CountBeyond(s, m, i);
  }

  /** A value held by more than half of the samples is their median. */
  lemma MajorityIsMedian(values: seq<real>, m: real)
    requires Majority(values, m)
    ensures Median(values) == m
  {
    SortedIsSorted(values);
    var s := Sorted(values);
    MajorityCoversMiddle(s, m, |s| / 2);
    if |s| % 2 == 0 {
      MajorityCoversMiddle(s, m, |s| / 2 - 1);
    }
  }

  lemma CountHead(s: seq<real>, m: real)
    requires s != []
    ensures multiset(s)[m] == (if s[0] == m then 1 else 0) + multiset(s[1..])[m]
  {
    CountSplit(s, m, 0);
    assert s[..0] == [];
  }

  lemma {:induction false} CountOfDeviations(values: seq<real>, m: real)
    ensures multiset(Deviations(values, m))[0.0] == multiset(values)[m]
  {
    var d := Deviations(values, m);
    if values != [] {
      var rest, dRest := values[1..], Deviations(values[1..], m);
      assert d[0] == AbsReal(values[0] - m);
      assert d[1..] == dRest;
      CountOfDeviations(rest, m);
      CountHead(values, m);
      CountHead(d, 0.0);
      assert d[0] == 0.0 <==> values[0] == m;
    }
  }

  /** A zero middle of non-negative values means more than half of them are zero. */
  lemma ZeroMiddle(s: seq<real>)
    requires Ascending(s) && s != [] && (forall i :: 0 <= i < |s| ==> s[i] >= 0.0)
    requires MiddleOf(s) == 0.0
    ensures Majority(s, 0.0)
  {
    var h := |s| / 2;
    assert forall i :: 0 <= i <= h ==> s[i] == 0.0;
    assert s == s[..h + 1] + s[h + 1..];
    AllEqualCount(s[..h + 1], 0.0);
  }

  lemma {:induction false} AllEqualCount(s: seq<real>, m: real)
    requires forall i :: 0 <= i < |s| ==> s[i] == m
    ensures multiset(s)[m] == |s|
  {
    if s != [] {
      assert s == [s[0]] + s[1..];
      AllEqualCount(s[1..], m);
    }
  }

  /** The dispersion of a window around its median vanishes exactly when one value fills more than
      half of it, and that value is the median. */
  lemma NoDispersionIffMajority(window: seq<real>)
    requires window != []
    ensures Mad(window, Median(window)) == 0.0 <==> Majority(window, Median(window))
  {
    var med := Median(window);
    var d := Deviations(window, med);
    CountOfDeviations(window, med);
    SortedIsSorted(d);
    if Majority(window, med) {
      MajorityIsMedian(d, 0.0);
    }
    if Mad(window, med) == 0.0 {
      forall i | 0 <= i < |d| ensures Sorted(d)[i] >= 0.0 {
        assert Sorted(d)[i] in multiset(Sorted(d));
      }
      ZeroMiddle(Sorted(d));
    }
  }

  /** Once one value fills more than half of a window, every other value counts as an outlier. */
  lemma MajorityRejectsAllElse(value: real, window: seq<real>, m: real, k: real)
    requires |window| >= 3 && Majority(window, m)
    ensures IsMadOutlier(value, window, k) <==> value != m
  {
    MajorityIsMedian(window, m);
    NoDispersionIffMajority(window);
  }

  lemma {:induction false} DeviationsNotNegative(values: seq<real>, med: real)
    requires values != []
    ensures Mad(values, med) >= 0.0
  {
    var d := Deviations(values, med);
    SortedIsSorted(d);
    forall i | 0 <= i < |d| ensures Sorted(d)[i] >= 0.0 {
      assert Sorted(d)[i] in multiset(Sorted(d));
    }
  }

  /** Without a majority there is room around the median: every value within k dispersions of it passes. */
  lemma RoomWithoutMajority(value: real, window: seq<real>, k: real)
    requires |window| >= 3 && !Majority(window, Median(window))
    ensures Mad(window, Median(window)) > 0.0
    ensures IsMadOutlier(value, window, k) <==> AbsReal(value - Median(window)) > k * Mad(window, Median(window))
  {
    NoDispersionIffMajority(window);
    DeviationsNotNegative(window, Median(window));
  }

  /** Exactly: a full enough window lets a single value pass if and only if that value holds its majority. */
  lemma OnlyOnePassesIffMajority(window: seq<real>, m: real, k: real)
    requires |window| >= 3 && k > 0.0
    ensures (forall value :: IsMadOutlier(value, window, k) <==> value != m) <==> Majority(window, m)
  {
    hide IsMadOutlier, Median, Mad;
    if Majority(window, m) {
      forall value ensures IsMadOutlier(value, window, k) <==> value != m {
        MajorityRejectsAllElse(value, window, m, k);
      }
    } else if Majority(window, Median(window)) {
      MajorityRejectsAllElse(m, window, Median(window), k);
      MajorityRejectsAllElse(Median(window), window, Median(window), k);
    } else {
      var med := Median(window);
      RoomWithoutMajority(med, window, k);
      var reach := k * Mad(window, med);
      assert reach > 0.0 by { ProductPositive(k, Mad(window, med)); }
      RoomWithoutMajority(med + reach, window, k);
      assert !IsMadOutlier(med, window, k) && !IsMadOutlier(med + reach, window, k);
    }
  }

  lemma ProductPositive(a: real, b: real)
    requires a > 0.0 && b > 0.0
    ensures a * b > 0.0
  {
  }

  /** A window that keeps at most `cap` values, the oldest dropped first. */
  function Pushed(window: seq<real>, value: real, cap: nat): (r: seq<real>)
    ensures |r| == if |window| < cap then |window| + 1 else cap
  {
    var grown := window + [value];
    if |grown| > cap then grown[|grown| - cap..] else grown
  }

  /** Adding the majority value keeps it the majority, whatever the window drops. */
  lemma PushKeepsMajority(window: seq<real>, m: real, cap: nat)
    requires Majority(window, m) && |window| <= cap
    ensures Majority(Pushed(window, m, cap), m) && |Pushed(window, m, cap)| >= |window|
  {
    var grown := window + [m];
    assert multiset(grown)[m] == multiset(window)[m] + 1;
    if |grown| > cap {
      assert grown == [grown[0]] + grown[1..];
      assert multiset(grown)[m] == multiset([grown[0]])[m] + multiset(grown[1..])[m];
      CountAtMost([grown[0]], m);
    }
  }
}
