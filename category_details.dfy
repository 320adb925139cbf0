/** The category details route: five sub-categories of the requested
    category with their share of the sub-category total, a seven-day
    series, and the POST handler's validation. */
module CategoryDetails {
  import opened Http
  import opened Seqs

  /** `percentTenths` is absent until the percentage pass sets it; it holds
      the `toFixed(1)` percentage in tenths of a percent. */
  datatype SubCategory = SubCategory(name: string, count: int, percentTenths: Option<int>)

  /** One day of the series; `day` is a day number. */
  datatype DayCount = DayCount(day: int, count: int)

  datatype Details = Details(subCategories: seq<SubCategory>, timeDistribution: seq<DayCount>)

  const Suffixes: seq<string> := [" - Type A", " - Type B", " - Type C", " - Type D", " - Type E"]
  /** `count: Math.floor(Math.random() * span) + base`, per sub-category. */
  const Base: seq<int> := [50, 40, 30, 20, 10]
  const Span: seq<int> := [100, 80, 60, 40, 20]

  /** The integer results of the `Math.floor(Math.random() * k)` draws:
      one per sub-category, then one per day of the series. */
  datatype Draws = Draws(subCounts: seq<int>, dayCounts: seq<int>)

  predicate InRange(d: Draws) {
    && |d.subCounts| == |Span|
    && (forall k :: 0 <= k < |Span| ==> 0 <= d.subCounts[k] < Span[k])
    && |d.dayCounts| == 7
    && (forall i :: 0 <= i < 7 ==> 0 <= d.dayCounts[i] < 50)
  }

  function Counts(subs: seq<SubCategory>): (r: seq<int>)
    ensures |r| == |subs| && forall k :: 0 <= k < |subs| ==> r[k] == subs[k].count
  {
    seq(|subs|, k requires 0 <= k < |subs| => subs[k].count)
  }

  /** `subCategories.reduce((sum, sub) => sum + sub.count, 0)`. */
  function Total(subs: seq<SubCategory>): int {
    Sum(Counts(subs))
  }

  /** `Number((count / total * 100).toFixed(1))`, in tenths. */
  function PercentTenths(count: int, total: int): int
    requires total > 0
  {
    RoundDiv(1000 * count, total)
  }

  /** The tenths value is the nearest one to `count / total * 1000`,
      halves rounded up. */
  lemma PercentTenthsNearest(count: int, total: int)
    requires total > 0
    ensures var p := PercentTenths(count, total);
      2 * total * p <= 2000 * count + total < 2 * total * p + 2 * total
  {
    RoundDivBounds(1000 * count, total);
  }

  /** The `forEach` that sets each sub-category's percentage in place. */
  method FillPercentages(a: array<SubCategory>, total: int)
    requires total > 0
    modifies a
    ensures forall k :: 0 <= k < a.Length ==>
      a[k] == old(a[k]).(percentTenths := Some(PercentTenths(old(a[k]).count, total)))
  {
    var k := 0;
    while k < a.Length
      invariant 0 <= k <= a.Length
      invariant forall m :: 0 <= m < k ==>
        a[m] == old(a[m]).(percentTenths := Some(PercentTenths(old(a[m]).count, total)))
      invariant forall m :: k <= m < a.Length ==> a[m] == old(a[m])
    {
      a[k] := a[k].(percentTenths := Some(PercentTenths(a[k].count, total)));
      k := k + 1;
    }
  }

  /** The last seven days, today included: `Array.from` counts back from
      today, and `reverse` puts the oldest first. */
  function TimeDistribution(today: int, dayCounts: seq<int>): seq<DayCount>
    requires |dayCounts| == 7
  {
    Reverse(seq(7, i requires 0 <= i < 7 => DayCount(today - i, dayCounts[i] + 10)))
  }

  /** The series runs from today - 6 to today, one entry per day. */
  lemma TimeDistributionOrder(today: int, dayCounts: seq<int>, k: nat)
    requires |dayCounts| == 7 && k < 7
    ensures |TimeDistribution(today, dayCounts)| == 7
    ensures TimeDistribution(today, dayCounts)[k] == DayCount(today - 6 + k, dayCounts[6 - k] + 10)
  {
    ReverseAt(seq(7, i requires 0 <= i < 7 => DayCount(today - i, dayCounts[i] + 10)), k);
  }

  /** generateMockCategoryDetails; `today` is the clock's day number. */
  method Generate(category: string, d: Draws, today: int) returns (r: Details)
    requires InRange(d)
    ensures |r.subCategories| == 5
    ensures forall k :: 0 <= k < 5 ==>
      && r.subCategories[k].name == category + Suffixes[k]
      && Base[k] <= r.subCategories[k].count < Base[k] + Span[k]
    ensures Total(r.subCategories) > 0
    ensures forall k :: 0 <= k < 5 ==>
      r.subCategories[k].percentTenths == Some(PercentTenths(r.subCategories[k].count, Total(r.subCategories)))
    ensures r.timeDistribution == TimeDistribution(today, d.dayCounts)
    ensures |r.timeDistribution| == 7
    ensures forall k :: 0 <= k < 7 ==>
      r.timeDistribution[k].day == today - 6 + k && 10 <= r.timeDistribution[k].count <= 59
  {
    forall k | 0 <= k < 7
      ensures |TimeDistribution(today, d.dayCounts)| == 7
      ensures TimeDistribution(today, d.dayCounts)[k] == DayCount(today - 6 + k, d.dayCounts[6 - k] + 10)
    {
      TimeDistributionOrder(today, d.dayCounts, k);
    }
    var built := seq(5, k requires 0 <= k < 5 => SubCategory(category + Suffixes[k], Base[k] + d.subCounts[k], None));
    var total := Total(built);
    TotalPositive(built);
    var a := new SubCategory[5](k requires 0 <= k < 5 => built[k]);
    FillPercentages(a, total);
    var subCategories := a[..];
    assert Counts(subCategories) == Counts(built);
    r := Details(subCategories, TimeDistribution(today, d.dayCounts));
  }

  /** The `reduce` folds from 0, adding one count per sub-category. */
  lemma TotalStep(subs: seq<SubCategory>, x: SubCategory)
    ensures Total([]) == 0
    ensures Total(subs + [x]) == Total(subs) + x.count
  {
    assert Counts(subs + [x]) == Counts(subs) + [x.count];
    SumAppend(Counts(subs), x.count);
  }

  lemma TotalPositive(subs: seq<SubCategory>)
    requires |subs| > 0 && forall k :: 0 <= k < |subs| ==> subs[k].count > 0
    ensures Total(subs) > 0
  {
    SumPositive(Counts(subs));
  }

  lemma {:induction false} SumPositive(s: seq<int>)
    requires |s| > 0 && forall k :: 0 <= k < |s| ==> s[k] > 0
    ensures Sum(s) > 0
  {
    if |s| > 1 {
      SumPositive(s[..|s| - 1]);
    }
  }

  lemma SumOfFive(s: seq<int>)
    requires |s| == 5
    ensures Sum(s) == s[0] + s[1] + s[2] + s[3] + s[4]
  {
    assert s[..4][..3] == s[..3] && s[..3][..2] == s[..2] && s[..2][..1] == s[..1];
    assert Sum(s[..1]) == s[0];
    assert Sum(s[..2]) == s[0] + s[1];
    assert Sum(s[..3]) == s[0] + s[1] + s[2];
    assert Sum(s[..4]) == s[0] + s[1] + s[2] + s[3];
  }

  /** `PercentTenths` of five counts against their own sum adds up to 100%
      within the five half-units of independent rounding: the sum of tenths
      lies in [998, 1002]. */
  lemma PercentagesNearHundred(counts: seq<int>)
    requires |counts| == 5 && forall k :: 0 <= k < 5 ==> counts[k] >= 0
    requires Sum(counts) > 0
    ensures var t := Sum(counts);
      998 <= Sum(seq(5, k requires 0 <= k < 5 => PercentTenths(counts[k], t))) <= 1002
  {
    var t := Sum(counts);
    var ps := seq(5, k requires 0 <= k < 5 => PercentTenths(counts[k], t));
    // the rounding error of each share, scaled by 2t: 0 <= e[k] < 2t
    var e := seq(5, k requires 0 <= k < 5 => 2000 * counts[k] + t - 2 * t * ps[k]);
    forall k | 0 <= k < 5 ensures 0 <= e[k] < 2 * t {
      RoundDivBounds(1000 * counts[k], t);
    }
    SumOfFive(counts);
    SumOfFive(ps);
    SumOfFive(e);
    var s := Sum(ps);
    Distribute(2 * t, ps[0], ps[1], ps[2], ps[3], ps[4]);
    assert 0 <= 2005 * t - 2 * t * s < 10 * t;
    if s > 1002 {
      MulMono(2 * t, 1003, s);
    }
    if s < 998 {
      MulMono(2 * t, s, 997);
    }
  }

  lemma Distribute(m: int, a: int, b: int, c: int, d: int, e: int)
    ensures m * (a + b + c + d + e) == m * a + m * b + m * c + m * d + m * e
  {
  }

  /** The fields of the request body the handler reads. */
  datatype Request = Request(category: Option<string>)

  /** POST /api/dashboard/category-details. `req` is `None` when
      `request.json()` throws. */
  method Post(req: Option<Request>, d: Draws, today: int) returns (reply: Reply<Details>)
    requires InRange(d)
    ensures req.None? ==> reply == Reply(500, Error("Internal server error"))
    ensures req.Some? && !Truthy(req.value.category) ==> reply == Reply(400, Error("Category is required"))
    ensures reply.status == 200 <==> req.Some? && Truthy(req.value.category)
    ensures reply.status == 200 ==>
      && reply.body.Data?
      && |reply.body.data.subCategories| == 5
      && (forall k :: 0 <= k < 5 ==>
        && reply.body.data.subCategories[k].name == req.value.category.value + Suffixes[k]
        && Base[k] <= reply.body.data.subCategories[k].count < Base[k] + Span[k])
      && Total(reply.body.data.subCategories) > 0
      && (forall k :: 0 <= k < 5 ==>
        reply.body.data.subCategories[k].percentTenths
        == Some(PercentTenths(reply.body.data.subCategories[k].count, Total(reply.body.data.subCategories))))
      && reply.body.data.timeDistribution == TimeDistribution(today, d.dayCounts)
  {
    if req.None? {
      return Reply(500, Error("Internal server error"));
    }
    var q := req.value;
    if !Truthy(q.category) {
      return Reply(400, Error("Category is required"));
    }
    var data := Generate(q.category.value, d, today);
    reply := Reply(200, Data(data));
  }
}
