/** The branch report page: the branch-selection toggle, the colour
    assigned to each selected branch, the guard in front of the report
    request, and the per-branch series the chart draws. */
module BranchPage {
  import opened Http
  import opened Seqs
  import opened FilterSplits
  import BranchReport

  function Other(branch: string): string -> bool {
    (b: string) => b != branch
  }

  /** handleBranchChange: a selected branch is filtered out, any other is
      appended. */
  function Toggle(selected: seq<string>, branch: string): (r: seq<string>)
    // the toggled branch changes membership, every other keeps it
    ensures branch in r <==> branch !in selected
    ensures forall x :: x != branch ==> (x in r <==> x in selected)
  {
    FilterMembers(selected, Other(branch));
    if branch in selected then Filter(selected, Other(branch)) else selected + [branch]
  }

  /** With no duplicates, removing the branch at index k keeps the others
      in their relative order. */
  lemma ToggleRemoves(selected: seq<string>, k: nat)
    requires NoDup(selected) && k < |selected|
    ensures Toggle(selected, selected[k]) == selected[..k] + selected[k + 1..]
  {
    var b := selected[k];
    forall i | 0 <= i < |selected| && i != k ensures Other(b)(selected[i]) {
      if i < k {
        assert selected[i] != selected[k];
      } else {
        assert selected[k] != selected[i];
      }
    }
    FilterRemovesAt(selected, k, Other(b));
  }

  /** An unselected branch goes to the end. */
  lemma ToggleAppends(selected: seq<string>, branch: string)
    requires branch !in selected
    ensures Toggle(selected, branch) == selected + [branch]
    ensures |Toggle(selected, branch)| == |selected| + 1
  {
  }

  /** The toggle never introduces a duplicate. */
  lemma ToggleNoDup(selected: seq<string>, branch: string)
    requires NoDup(selected)
    ensures NoDup(Toggle(selected, branch))
  {
    if branch in selected {
      var k :| 0 <= k < |selected| && selected[k] == branch;
      ToggleRemoves(selected, k);
      NoDupRemoveAt(selected, k);
    }
  }

  /** Selecting and then deselecting a branch restores the selection. */
  lemma ToggleTwiceAbsent(selected: seq<string>, branch: string)
    requires branch !in selected
    ensures Toggle(Toggle(selected, branch), branch) == selected
  {
    FilterConcat(selected, [branch], Other(branch));
    FilterKeepsAll(selected, Other(branch));
    FilterSingleton(branch, Other(branch));
  }

  /** Deselecting and then reselecting a branch moves it to the end. */
  lemma ToggleTwicePresent(selected: seq<string>, k: nat)
    requires NoDup(selected) && k < |selected|
    ensures Toggle(Toggle(selected, selected[k]), selected[k]) == selected[..k] + selected[k + 1..] + [selected[k]]
  {
    ToggleRemoves(selected, k);
    var rest := selected[..k] + selected[k + 1..];
    forall i | 0 <= i < |rest| ensures rest[i] != selected[k] {
      if i < k {
        assert rest[i] == selected[i];
      } else {
        assert rest[i] == selected[i + 1];
      }
    }
  }

  datatype Rgb = Rgb(red: int, green: int, blue: int)

  /** The six chart colours, alpha left out. */
  const Palette: seq<Rgb> := [
    Rgb(59, 130, 246), Rgb(34, 197, 94), Rgb(234, 179, 8),
    Rgb(168, 85, 247), Rgb(239, 68, 68), Rgb(14, 165, 233)]

  /** getBranchColor for the `index` that `map` passes. */
  function BranchColor(index: nat): (c: Rgb)
    ensures c in Palette
  {
    Palette[index % |Palette|]
  }

  /** Colours repeat with period six, and two indices in different
      residues mod six never share a colour. */
  lemma ColorCycle(i: nat, j: nat)
    ensures BranchColor(i + 6) == BranchColor(i)
    ensures BranchColor(i) == BranchColor(j) <==> i % 6 == j % 6
  {
  }

  datatype DateRange = DateRange(startDate: string, endDate: string)

  /** The page state the guard and the button read. */
  datatype PageState = PageState(dateRange: DateRange, selected: seq<string>, loading: bool)

  predicate CanFetch(s: PageState) {
    s.dateRange.startDate != "" && s.dateRange.endDate != "" && |s.selected| > 0
  }

  /** The button's `disabled` attribute. */
  predicate ButtonDisabled(s: PageState) {
    s.loading || s.dateRange.startDate == "" || s.dateRange.endDate == "" || s.selected == []
  }

  /** fetchBranchData: the body it posts, or `None` when the guard returns
      early. `dayOf` is how the route reads a date string. */
  function FetchRequest(s: PageState, dayOf: string -> int): (r: Option<BranchReport.Request>)
    ensures r.Some? <==> CanFetch(s)
    ensures r.Some? ==>
      && r.value.branches == Some(s.selected)
      && r.value.startDate.Some? && r.value.startDate.value.text == s.dateRange.startDate
      && r.value.endDate.Some? && r.value.endDate.value.text == s.dateRange.endDate
  {
    if s.dateRange.startDate == "" || s.dateRange.endDate == "" || |s.selected| == 0 then None
    else Some(BranchReport.Request(
      Some(s.selected),
      Some(BranchReport.DateInput(s.dateRange.startDate, dayOf(s.dateRange.startDate))),
      Some(BranchReport.DateInput(s.dateRange.endDate, dayOf(s.dateRange.endDate)))))
  }

  /** The button is enabled exactly when the page is idle and the guard
      lets the request through, and every request the page sends passes
      the route's validation. */
  lemma GuardAgreesWithRoute(s: PageState, dayOf: string -> int)
    ensures !ButtonDisabled(s) <==> !s.loading && FetchRequest(s, dayOf).Some?
    ensures FetchRequest(s, dayOf).Some? ==> BranchReport.Accepts(FetchRequest(s, dayOf).value)
  {
  }

  function OnBranch(branch: string): BranchReport.Point -> bool {
    (p: BranchReport.Point) => p.branch == branch
  }

  /** The data of one chart dataset. */
  function Series(trend: seq<BranchReport.Point>, branch: string): (r: seq<int>)
    ensures |r| <= |trend|
  {
    BranchReport.PointCounts(Filter(trend, OnBranch(branch)))
  }

  datatype Dataset = Dataset(branch: string, data: seq<int>, color: Rgb)

  /** `selectedBranches.map((branch, index) => ...)`. */
  function Datasets(trend: seq<BranchReport.Point>, selected: seq<string>): (r: seq<Dataset>)
    ensures |r| == |selected|
    ensures forall k :: 0 <= k < |r| ==> r[k].branch == selected[k] && r[k].color == Palette[k % 6]
  {
    seq(|selected|, k requires 0 <= k < |selected| => Dataset(selected[k], Series(trend, selected[k]), BranchColor(k)))
  }

  /** The counts branch j gets on each of the first `days` days. */
  function DayCounts(branches: seq<string>, j: nat, start: int, days: nat, noise: (nat, nat) -> int): (r: seq<int>)
    requires j < |branches|
    ensures |r| == days
  {
    seq(days, i requires 0 <= i < days => BranchReport.PointCount(branches[j], start + i, noise(i, j)))
  }

  /** With distinct branch names, the series of branch j in a generated
      trend is that branch's count on each day, oldest first. */
  lemma {:induction false} SeriesOfTrend(branches: seq<string>, start: int, days: nat, noise: (nat, nat) -> int, j: nat)
    requires NoDup(branches) && j < |branches|
    ensures Series(BranchReport.Trend(branches, start, days, noise), branches[j]) == DayCounts(branches, j, start, days, noise)
  {
    if days > 0 {
      SeriesStep(branches, start, days, noise, branches[j]);
      RowSeries(branches, start, days - 1, noise, j);
      SeriesOfTrend(branches, start, days - 1, noise, j);
      DayCountsStep(branches, j, start, days, noise);
    }
  }

  /** Each further day appends that day's row to the series. */
  lemma SeriesStep(branches: seq<string>, start: int, days: nat, noise: (nat, nat) -> int, branch: string)
    requires days > 0
    ensures Series(BranchReport.Trend(branches, start, days, noise), branch)
         == Series(BranchReport.Trend(branches, start, days - 1, noise), branch)
          + Series(BranchReport.Row(branches, start, days - 1, noise), branch)
  {
    var prefix := BranchReport.Trend(branches, start, days - 1, noise);
    var row := BranchReport.Row(branches, start, days - 1, noise);
    assert BranchReport.Trend(branches, start, days, noise) == prefix + row;
    SeriesConcat(prefix, row, branch);
  }

  /** A day's row contributes exactly branch j's count of that day. */
  lemma RowSeries(branches: seq<string>, start: int, i: nat, noise: (nat, nat) -> int, j: nat)
    requires NoDup(branches) && j < |branches|
    ensures Series(BranchReport.Row(branches, start, i, noise), branches[j])
         == [BranchReport.PointCount(branches[j], start + i, noise(i, j))]
  {
    RowFilter(branches, start, i, noise, j);
  }

  lemma SeriesConcat(a: seq<BranchReport.Point>, b: seq<BranchReport.Point>, branch: string)
    ensures Series(a + b, branch) == Series(a, branch) + Series(b, branch)
  {
    FilterConcat(a, b, OnBranch(branch));
    PointCountsConcat(Filter(a, OnBranch(branch)), Filter(b, OnBranch(branch)));
  }

  lemma PointCountsConcat(a: seq<BranchReport.Point>, b: seq<BranchReport.Point>)
    ensures BranchReport.PointCounts(a + b) == BranchReport.PointCounts(a) + BranchReport.PointCounts(b)
  {
  }

  lemma DayCountsStep(branches: seq<string>, j: nat, start: int, days: nat, noise: (nat, nat) -> int)
    requires j < |branches| && days > 0
    ensures DayCounts(branches, j, start, days, noise)
         == DayCounts(branches, j, start, days - 1, noise) + [BranchReport.PointCount(branches[j], start + days - 1, noise(days - 1, j))]
  {
  }

  /** One day's row holds exactly one point of branch j. */
  lemma RowFilter(branches: seq<string>, start: int, i: nat, noise: (nat, nat) -> int, j: nat)
    requires NoDup(branches) && j < |branches|
    ensures Filter(BranchReport.Row(branches, start, i, noise), OnBranch(branches[j]))
         == [BranchReport.Point(start + i, BranchReport.PointCount(branches[j], start + i, noise(i, j)), branches[j])]
  {
    var row := BranchReport.Row(branches, start, i, noise);
    var p := OnBranch(branches[j]);
    forall m | 0 <= m < |row| && m != j ensures !p(row[m]) {
      assert row[m].branch == branches[m];
      if m < j {
        assert branches[m] != branches[j];
      } else {
        assert branches[j] != branches[m];
      }
    }
    FilterKeepsAt(row, j, p);
  }

  /** A report generated for the page's own selection draws, for each
      selected branch, its count on each day in trend order. */
  lemma DatasetsOfReport(selected: seq<string>, start: int, days: nat, noise: (nat, nat) -> int, k: nat)
    requires NoDup(selected) && k < |selected|
    ensures Datasets(BranchReport.Trend(selected, start, days, noise), selected)[k].data
         == DayCounts(selected, k, start, days, noise)
  {
    SeriesOfTrend(selected, start, days, noise, k);
  }
}
