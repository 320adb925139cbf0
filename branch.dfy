/** The branch report route: a day-by-branch trend built by a loop, its
    total and average, and the POST handler's validation. */
module BranchReport {
  import opened Http
  import opened Seqs

  /** A calendar date as the request carries it: its text (what the
      truthiness test and the echoed range see) and the day number it
      denotes (days since 1970-01-01). */
  datatype DateInput = DateInput(text: string, day: int)

  datatype Point = Point(day: int, count: int, branch: string)

  datatype DateRange = DateRange(startDate: DateInput, endDate: DateInput)

  /** `averagePerDay` is `None` when the quotient is not a finite number
      (a zero divisor), which JSON serialises as `null`. */
  datatype Report = Report(
    branches: seq<string>,
    totalCount: int,
    averagePerDay: Option<int>,
    trend: seq<Point>,
    dateRange: DateRange)

  /** ASCII `toLowerCase`. */
  function Lower(s: string): (r: string)
    ensures |r| == |s|
  {
    if s == [] then []
    else
      var c := s[0];
      [if 'A' <= c <= 'Z' then (c as int + 32) as char else c] + Lower(s[1..])
  }

  /** `s.includes(t)`. */
  predicate Includes(s: string, t: string) {
    |t| <= |s| && (s[..|t|] == t || Includes(s[1..], t))
  }

  /** The base count of a branch, chosen by its name. */
  function BaseCount(branch: string): int {
    if Includes(Lower(branch), "main") then 50
    else if Includes(Lower(branch), "downtown") then 40
    else 30
  }

  /** `getDay()` of a day number: 0 is Sunday; day 0 was a Thursday. */
  function Weekday(day: int): int {
    (day + 4) % 7
  }

  predicate IsWeekend(day: int) {
    Weekday(day) == 0 || Weekday(day) == 6
  }

  /** `Lower` maps each character on its own: capitals to small letters,
      everything else unchanged. */
  lemma {:induction false} LowerAt(s: string)
    ensures |Lower(s)| == |s|
    ensures forall i :: 0 <= i < |s| ==>
      Lower(s)[i] == if 'A' <= s[i] <= 'Z' then (s[i] as int + 32) as char else s[i]
  {
    if s != [] {
      LowerAt(s[1..]);
      forall i | 0 <= i < |s|
        ensures Lower(s)[i] == if 'A' <= s[i] <= 'Z' then (s[i] as int + 32) as char else s[i]
      {
        if i > 0 {
          assert Lower(s)[i] == Lower(s[1..])[i - 1];
          assert s[1..][i - 1] == s[i];
        }
      }
    }
  }

  /** `t` occurs in `s` starting at position `i`. */
  predicate OccursAt(s: string, t: string, i: nat) {
    i + |t| <= |s| && s[i..i + |t|] == t
  }

  /** `Includes` is substring occurrence at some position. */
  lemma {:induction false} IncludesAt(s: string, t: string)
    ensures Includes(s, t) <==> exists i: nat :: OccursAt(s, t, i)
  {
    if |t| <= |s| {
      if s[..|t|] == t {
        assert OccursAt(s, t, 0);
      } else {
        IncludesAt(s[1..], t);
        if exists i: nat :: OccursAt(s, t, i) {
          var i: nat :| OccursAt(s, t, i);
          assert i > 0;
          assert s[1..][i - 1..i - 1 + |t|] == s[i..i + |t|];
          assert OccursAt(s[1..], t, i - 1);
        }
        if Includes(s[1..], t) {
          var i: nat :| OccursAt(s[1..], t, i);
          assert s[1..][i..i + |t|] == s[i + 1..i + 1 + |t|];
          assert OccursAt(s, t, i + 1);
        }
      }
    }
  }

  /** A name contains "main" in any letter case. */
  ghost predicate HasMain(branch: string) {
    exists i: nat :: OccursAt(Lower(branch), "main", i)
  }

  /** A name contains "downtown" in any letter case. */
  ghost predicate HasDowntown(branch: string) {
    exists i: nat :: OccursAt(Lower(branch), "downtown", i)
  }

  lemma IncludesMain(branch: string)
    ensures Includes(Lower(branch), "main") <==> HasMain(branch)
  {
    IncludesAt(Lower(branch), "main");
  }

  lemma IncludesDowntown(branch: string)
    ensures Includes(Lower(branch), "downtown") <==> HasDowntown(branch)
  {
    IncludesAt(Lower(branch), "downtown");
  }

  /** The branch's base count: 50 when its name contains "main" in any
      letter case, otherwise 40 when it contains "downtown", otherwise
      30. */
  lemma BaseCountChoice(branch: string)
    ensures BaseCount(branch) in {30, 40, 50}
    ensures HasMain(branch) ==> BaseCount(branch) == 50
    ensures HasDowntown(branch) && !HasMain(branch) ==> BaseCount(branch) == 40
    ensures !HasDowntown(branch) && !HasMain(branch) ==> BaseCount(branch) == 30
  {
    IncludesMain(branch);
    IncludesDowntown(branch);
  }

  /** Each further day moves `getDay()` on by one, Saturday wrapping to
      Sunday; 1970-01-01 was a Thursday. */
  lemma WeekdayNext(day: int)
    ensures 0 <= Weekday(day) < 7
    ensures Weekday(day + 1) == (Weekday(day) + 1) % 7
    ensures Weekday(0) == 4
  {
  }

  /** 1 for a weekend day, 0 otherwise. */
  function WeekendMark(day: int): int {
    if IsWeekend(day) then 1 else 0
  }

  /** Any seven consecutive days hold exactly two weekend days. */
  lemma TwoWeekendDays(day: int)
    ensures WeekendMark(day) + WeekendMark(day + 1) + WeekendMark(day + 2) + WeekendMark(day + 3)
          + WeekendMark(day + 4) + WeekendMark(day + 5) + WeekendMark(day + 6) == 2
  {
    var w := Weekday(day);
    WeekdayNext(day);
    WeekdayNext(day + 1);
    WeekdayNext(day + 2);
    WeekdayNext(day + 3);
    WeekdayNext(day + 4);
    WeekdayNext(day + 5);
  }

  /** `Math.max(0, Math.round((baseCount + randomFactor) * weekendFactor))`
      with the random factor in tenths (`noise` / 10, -100 <= noise < 100
      for the source's draw) and the weekend factor 7/10. */
  function PointCount(branch: string, day: int, noise: int): (c: int)
    ensures c >= 0
  {
    var factor := if IsWeekend(day) then 7 else 10;
    var rounded := RoundDiv((10 * BaseCount(branch) + noise) * factor, 100);
    if rounded < 0 then 0 else rounded
  }

  /** The points of day index `i`, one per branch in the given order. */
  function Row(branches: seq<string>, start: int, i: nat, noise: (nat, nat) -> int): (r: seq<Point>)
    ensures |r| == |branches|
  {
    seq(|branches|, j requires 0 <= j < |branches| =>
      Point(start + i, PointCount(branches[j], start + i, noise(i, j)), branches[j]))
  }

  /** The trend for the first `days` days: day-major, branch-minor. */
  function Trend(branches: seq<string>, start: int, days: nat, noise: (nat, nat) -> int): seq<Point> {
    if days == 0 then [] else Trend(branches, start, days - 1, noise) + Row(branches, start, days - 1, noise)
  }

  function PointCounts(trend: seq<Point>): (r: seq<int>)
    ensures |r| == |trend| && forall k :: 0 <= k < |trend| ==> r[k] == trend[k].count
  {
    seq(|trend|, k requires 0 <= k < |trend| => trend[k].count)
  }

  /** `Math.round(total / divisor)` as JSON carries it. */
  function Average(total: int, divisor: int): (r: Option<int>)
    ensures r.None? <==> divisor == 0
  {
    if divisor == 0 then None
    else if divisor > 0 then Some(RoundDiv(total, divisor))
    else Some(RoundDiv(-total, -divisor))
  }

  /** The number of days the loop runs: `end - start`, or none when the
      range is empty or reversed. */
  function Days(start: DateInput, end: DateInput): nat {
    if end.day - start.day > 0 then end.day - start.day else 0
  }

  /** generateMockData: one point per day in [start, end) and branch, the
      running total, and the average per day and branch. `noise(i, j)` is
      the random factor drawn for day index i and branch index j. */
  method Generate(branches: seq<string>, start: DateInput, end: DateInput, noise: (nat, nat) -> int)
    returns (r: Report)
    ensures r.trend == Trend(branches, start.day, Days(start, end), noise)
    ensures r.totalCount == Sum(PointCounts(r.trend))
    ensures r.averagePerDay == Average(r.totalCount, (end.day - start.day) * |branches|)
    ensures r.branches == branches && r.dateRange == DateRange(start, end)
  {
    var daysDiff := end.day - start.day;
    var trend, totalCount := DayLoop(branches, start.day, daysDiff, noise);
    var divisor := daysDiff * |branches|;
    var average := Average(totalCount, divisor);
    r := Report(branches, totalCount, average, trend, DateRange(start, end));
  }

  /** The `for` loop over the day indices 0 .. daysDiff - 1. */
  method DayLoop(branches: seq<string>, start: int, daysDiff: int, noise: (nat, nat) -> int)
    returns (trend: seq<Point>, totalCount: int)
    ensures trend == Trend(branches, start, if daysDiff > 0 then daysDiff else 0, noise)
    ensures totalCount == Sum(PointCounts(trend))
  {
    trend, totalCount := [], 0;
    var i := 0;
    while i < daysDiff
      invariant 0 <= i <= if daysDiff > 0 then daysDiff else 0
      invariant trend == Trend(branches, start, i, noise)
      invariant totalCount == Sum(PointCounts(trend))
    {
      TrendStep(branches, start, i, noise);
      trend, totalCount := AddDay(branches, start, i, noise, trend, totalCount);
      i := i + 1;
    }
  }

  /** The `branches.forEach` body for day index `i`: one point per branch
      pushed onto the trend, its count added to the running total. */
  method AddDay(branches: seq<string>, start: int, i: nat, noise: (nat, nat) -> int, trend: seq<Point>, total: int)
    returns (trend': seq<Point>, total': int)
    requires total == Sum(PointCounts(trend))
    ensures trend' == trend + Row(branches, start, i, noise)
    ensures total' == Sum(PointCounts(trend'))
  {
    trend', total' := trend, total;
    var j := 0;
    while j < |branches|
      invariant 0 <= j <= |branches|
      invariant trend' == trend + Row(branches, start, i, noise)[..j]
      invariant total' == Sum(PointCounts(trend'))
    {
      var p := Point(start + i, PointCount(branches[j], start + i, noise(i, j)), branches[j]);
      RowStep(branches, start, i, noise, j);
      PushPoint(trend', p);
      trend' := trend' + [p];
      total' := total' + p.count;
      j := j + 1;
    }
    assert Row(branches, start, i, noise)[..|branches|] == Row(branches, start, i, noise);
  }

  lemma TrendStep(branches: seq<string>, start: int, i: nat, noise: (nat, nat) -> int)
    ensures Trend(branches, start, i + 1, noise) == Trend(branches, start, i, noise) + Row(branches, start, i, noise)
  {
  }

  lemma RowStep(branches: seq<string>, start: int, i: nat, noise: (nat, nat) -> int, j: nat)
    requires j < |branches|
    ensures Row(branches, start, i, noise)[..j + 1]
         == Row(branches, start, i, noise)[..j] + [Point(start + i, PointCount(branches[j], start + i, noise(i, j)), branches[j])]
  {
    assert Row(branches, start, i, noise)[j] == Point(start + i, PointCount(branches[j], start + i, noise(i, j)), branches[j]);
  }

  lemma PushPoint(trend: seq<Point>, p: Point)
    ensures Sum(PointCounts(trend + [p])) == Sum(PointCounts(trend)) + p.count
  {
    assert PointCounts(trend + [p]) == PointCounts(trend) + [p.count];
    SumAppend(PointCounts(trend), p.count);
  }

  /** The trend has one point per day and branch, and point i·n + j is
      branch j on day start + i. */
  lemma {:induction false} TrendAt(branches: seq<string>, start: int, days: nat, noise: (nat, nat) -> int, i: nat, j: nat)
    requires i < days && j < |branches|
    ensures |Trend(branches, start, days, noise)| == days * |branches|
    ensures i * |branches| + j < days * |branches|
    ensures Trend(branches, start, days, noise)[i * |branches| + j]
         == Point(start + i, PointCount(branches[j], start + i, noise(i, j)), branches[j])
  {
    var n := |branches|;
    var prefix := Trend(branches, start, days - 1, noise);
    var row := Row(branches, start, days - 1, noise);
    TrendLength(branches, start, days, noise);
    TrendLength(branches, start, days - 1, noise);
    assert Trend(branches, start, days, noise) == prefix + row;
    if i == days - 1 {
      assert i * n + j == |prefix| + j;
      assert row[j] == Point(start + i, PointCount(branches[j], start + i, noise(i, j)), branches[j]);
    } else {
      TrendAt(branches, start, days - 1, noise, i, j);
      MulMono(n, i + 1, days - 1);
      assert i * n + j < |prefix|;
    }
  }

  lemma {:induction false} TrendLength(branches: seq<string>, start: int, days: nat, noise: (nat, nat) -> int)
    ensures |Trend(branches, start, days, noise)| == days * |branches|
  {
    if days > 0 {
      TrendLength(branches, start, days - 1, noise);
      assert (days - 1) * |branches| + |branches| == days * |branches|;
    }
  }

  /** An empty or reversed range yields no points and a total of 0. */
  lemma EmptyRange(branches: seq<string>, start: DateInput, end: DateInput, noise: (nat, nat) -> int)
    requires end.day <= start.day
    ensures Trend(branches, start.day, Days(start, end), noise) == []
    ensures Sum(PointCounts(Trend(branches, start.day, Days(start, end), noise))) == 0
  {
  }

  lemma {:induction false} SumNonNegative(s: seq<int>)
    requires forall k :: 0 <= k < |s| ==> s[k] >= 0
    ensures Sum(s) >= 0
  {
    if s != [] {
      SumNonNegative(s[..|s| - 1]);
    }
  }

  /** Every count is non-negative, so the total is too. */
  lemma TotalNonNegative(trend: seq<Point>)
    requires forall k :: 0 <= k < |trend| ==> trend[k].count >= 0
    ensures Sum(PointCounts(trend)) >= 0
  {
    SumNonNegative(PointCounts(trend));
  }

  lemma {:induction false} TrendCountsNonNegative(branches: seq<string>, start: int, days: nat, noise: (nat, nat) -> int)
    ensures forall k :: 0 <= k < |Trend(branches, start, days, noise)| ==> Trend(branches, start, days, noise)[k].count >= 0
  {
    if days > 0 {
      TrendCountsNonNegative(branches, start, days - 1, noise);
      var prefix: seq<Point> := Trend(branches, start, days - 1, noise);
      var row: seq<Point> := Row(branches, start, days - 1, noise);
      forall k | 0 <= k < |prefix + row| ensures (prefix + row)[k].count >= 0 {
        if k >= |prefix| {
          var j := k - |prefix|;
          assert (prefix + row)[k] == row[j];
          assert row[j].count == PointCount(branches[j], start + days - 1, noise(days - 1, j));
        }
      }
    }
  }

  /** On a weekday the count stays within 10 of the base; on a weekend it
      is about 7/10 of it. The branch's name alone picks the base. */
  lemma CountRange(branch: string, day: int, noise: int)
    requires -100 <= noise < 100
    ensures !IsWeekend(day) ==> BaseCount(branch) - 10 <= PointCount(branch, day, noise) <= BaseCount(branch) + 10
    ensures IsWeekend(day) ==> 7 * BaseCount(branch) - 70 <= 10 * PointCount(branch, day, noise) <= 7 * BaseCount(branch) + 70
  {
  }

  /** With a non-empty range and branch list the average is the rounded
      mean count per point. */
  lemma AverageOfRange(r: Report, start: DateInput, end: DateInput)
    requires r.averagePerDay == Average(r.totalCount, (end.day - start.day) * |r.branches|)
    requires end.day > start.day && |r.branches| > 0
    ensures r.averagePerDay.Some?
    ensures var d := Days(start, end) * |r.branches|;
      2 * d * r.averagePerDay.value <= 2 * r.totalCount + d < 2 * d * r.averagePerDay.value + 2 * d
  {
    var d := (end.day - start.day) * |r.branches|;
    MulMono(end.day - start.day, 1, |r.branches|);
    assert r.averagePerDay == Some(RoundDiv(r.totalCount, d));
    RoundDivBounds(r.totalCount, d);
  }

  /** The fields of the request body the handler reads. */
  datatype Request = Request(
    branches: Option<seq<string>>,
    startDate: Option<DateInput>,
    endDate: Option<DateInput>)

  predicate DatePresent(d: Option<DateInput>) {
    d.Some? && d.value.text != ""
  }

  /** `!branches?.length || !startDate || !endDate` is false. */
  predicate Accepts(req: Request) {
    req.branches.Some? && |req.branches.value| > 0 && DatePresent(req.startDate) && DatePresent(req.endDate)
  }

  /** POST /api/reports/branch. `req` is `None` when `request.json()`
      throws. */
  method Post(req: Option<Request>, noise: (nat, nat) -> int) returns (reply: Reply<Report>)
    ensures req.None? ==> reply == Reply(500, Error("Failed to generate branch report"))
    ensures req.Some? && !Accepts(req.value) ==>
      reply == Reply(400, Error("Branches, start date, and end date are required"))
    ensures reply.status == 200 <==> req.Some? && Accepts(req.value)
    ensures reply.status == 200 ==>
      var q := req.value;
      && reply.body.Data?
      && reply.body.data.branches == q.branches.value
      && reply.body.data.dateRange == DateRange(q.startDate.value, q.endDate.value)
      && reply.body.data.trend == Trend(q.branches.value, q.startDate.value.day, Days(q.startDate.value, q.endDate.value), noise)
      && reply.body.data.totalCount == Sum(PointCounts(reply.body.data.trend))
      && reply.body.data.averagePerDay
         == Average(reply.body.data.totalCount, (q.endDate.value.day - q.startDate.value.day) * |q.branches.value|)
  {
    if req.None? {
      return Reply(500, Error("Failed to generate branch report"));
    }
    var q := req.value;
    if !Accepts(q) {
      return Reply(400, Error("Branches, start date, and end date are required"));
    }
    var data := Generate(q.branches.value, q.startDate.value, q.endDate.value, noise);
    reply := Reply(200, Data(data));
  }
}
