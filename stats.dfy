/** The dashboard stats route: fixed subject and branch buckets with
    random counts, a pass that fills in each bucket's percentage of the
    total, and the POST handler's validation. */
module DashboardStats {
  import opened Http

  datatype Bucket = Bucket(name: string, count: int, percentage: int)

  datatype DateRange = DateRange(startDate: string, endDate: string)

  /** `lastUpdated` is the generation time as the clock renders it. */
  datatype Dashboard = Dashboard(
    totalConversations: int,
    topSubjects: seq<Bucket>,
    topBranches: seq<Bucket>,
    dateRange: DateRange,
    lastUpdated: string)

  const SubjectNames: seq<string> := ["Technical Support", "Billing Inquiries", "Product Questions"]
  /** `count: Math.floor(Math.random() * span) + base`, per subject. */
  const SubjectBase: seq<int> := [200, 150, 100]
  const SubjectSpan: seq<int> := [300, 200, 150]

  const BranchNames: seq<string> := ["Main Street Branch", "Downtown Branch", "West Side Branch", "East End Branch"]
  const BranchBase: seq<int> := [150, 100, 100, 100]
  const BranchSpan: seq<int> := [250, 200, 150, 150]

  /** The integer results of the `Math.floor(Math.random() * k)` draws. */
  datatype Draws = Draws(total: int, subjects: seq<int>, branches: seq<int>)

  predicate InRange(d: Draws) {
    && 0 <= d.total < 1000
    && |d.subjects| == |SubjectSpan|
    && (forall k :: 0 <= k < |SubjectSpan| ==> 0 <= d.subjects[k] < SubjectSpan[k])
    && |d.branches| == |BranchSpan|
    && (forall k :: 0 <= k < |BranchSpan| ==> 0 <= d.branches[k] < BranchSpan[k])
  }

  /** The buckets as first built, with a zero percentage. */
  function Buckets(names: seq<string>, base: seq<int>, draws: seq<int>): (r: seq<Bucket>)
    requires |names| == |base| == |draws|
    ensures |r| == |names|
    ensures forall k :: 0 <= k < |r| ==> r[k] == Bucket(names[k], base[k] + draws[k], 0)
  {
    seq(|names|, k requires 0 <= k < |names| => Bucket(names[k], base[k] + draws[k], 0))
  }

  /** `Math.round(count / total * 100)` on exact rationals. */
  function Percentage(count: int, total: int): int
    requires total > 0
  {
    RoundDiv(100 * count, total)
  }

  /** The percentage is the integer nearest to `count / total * 100`,
      halves rounded up. */
  lemma PercentageNearest(count: int, total: int)
    requires total > 0
    ensures var p := Percentage(count, total);
      2 * total * p <= 200 * count + total < 2 * total * p + 2 * total
  {
    RoundDivBounds(100 * count, total);
  }

  /** The `forEach` that overwrites each bucket's percentage in place. */
  method FillPercentages(a: array<Bucket>, total: int)
    requires total > 0
    modifies a
    ensures forall k :: 0 <= k < a.Length ==>
      a[k] == old(a[k]).(percentage := Percentage(old(a[k]).count, total))
  {
    var k := 0;
    while k < a.Length
      invariant 0 <= k <= a.Length
      invariant forall m :: 0 <= m < k ==> a[m] == old(a[m]).(percentage := Percentage(old(a[m]).count, total))
      invariant forall m :: k <= m < a.Length ==> a[m] == old(a[m])
    {
      a[k] := a[k].(percentage := Percentage(a[k].count, total));
      k := k + 1;
    }
  }

  /** The buckets built from `s`, with their percentages filled in. */
  method WithPercentages(s: seq<Bucket>, total: int) returns (r: seq<Bucket>)
    requires total > 0
    ensures |r| == |s|
    ensures forall k :: 0 <= k < |s| ==>
      r[k].name == s[k].name && r[k].count == s[k].count && r[k].percentage == Percentage(s[k].count, total)
  {
    var a := new Bucket[|s|](k requires 0 <= k < |s| => s[k]);
    assert a[..] == s;
    FillPercentages(a, total);
    r := a[..];
  }

  /** generateMockData. */
  method Generate(range: DateRange, d: Draws, now: string) returns (r: Dashboard)
    requires InRange(d)
    ensures 500 <= r.totalConversations <= 1499
    ensures |r.topSubjects| == |SubjectNames|
    ensures forall k :: 0 <= k < |SubjectNames| ==>
      && r.topSubjects[k].name == SubjectNames[k]
      && SubjectBase[k] <= r.topSubjects[k].count < SubjectBase[k] + SubjectSpan[k]
      && r.topSubjects[k].percentage == Percentage(r.topSubjects[k].count, r.totalConversations)
    ensures |r.topBranches| == |BranchNames|
    ensures forall k :: 0 <= k < |BranchNames| ==>
      && r.topBranches[k].name == BranchNames[k]
      && BranchBase[k] <= r.topBranches[k].count < BranchBase[k] + BranchSpan[k]
      && r.topBranches[k].percentage == Percentage(r.topBranches[k].count, r.totalConversations)
    ensures r.dateRange == range && r.lastUpdated == now
  {
    var total := d.total + 500;
    var subjects := Buckets(SubjectNames, SubjectBase, d.subjects);
    var branches := Buckets(BranchNames, BranchBase, d.branches);
    subjects := WithPercentages(subjects, total);
    branches := WithPercentages(branches, total);
    r := Dashboard(total, subjects, branches, range, now);
  }

  /** Every count stays below the smallest possible total, so every
      percentage lies in [0, 100]. */
  lemma PercentagesBounded(r: Dashboard)
    requires 500 <= r.totalConversations
    requires |r.topSubjects| == |SubjectNames| && |r.topBranches| == |BranchNames|
    requires forall k :: 0 <= k < |SubjectNames| ==>
      && SubjectBase[k] <= r.topSubjects[k].count < SubjectBase[k] + SubjectSpan[k]
      && r.topSubjects[k].percentage == Percentage(r.topSubjects[k].count, r.totalConversations)
    requires forall k :: 0 <= k < |BranchNames| ==>
      && BranchBase[k] <= r.topBranches[k].count < BranchBase[k] + BranchSpan[k]
      && r.topBranches[k].percentage == Percentage(r.topBranches[k].count, r.totalConversations)
    ensures forall k :: 0 <= k < |r.topSubjects| ==> 0 <= r.topSubjects[k].percentage <= 100
    ensures forall k :: 0 <= k < |r.topBranches| ==> 0 <= r.topBranches[k].percentage <= 100
  {
    forall k | 0 <= k < |r.topSubjects| ensures 0 <= r.topSubjects[k].percentage <= 100 {
      ShareBounds(r.topSubjects[k].count, r.totalConversations, 100);
    }
    forall k | 0 <= k < |r.topBranches| ensures 0 <= r.topBranches[k].percentage <= 100 {
      ShareBounds(r.topBranches[k].count, r.totalConversations, 100);
    }
  }

  /** The fields of the request body the handler reads. */
  datatype Request = Request(startDate: Option<string>, endDate: Option<string>)

  /** POST /api/dashboard/stats. `req` is `None` when `request.json()`
      throws; `now` is the clock reading. */
  method Post(req: Option<Request>, d: Draws, now: string) returns (reply: Reply<Dashboard>)
    requires InRange(d)
    ensures req.None? ==> reply == Reply(500, Error("Internal server error"))
    ensures req.Some? && !(Truthy(req.value.startDate) && Truthy(req.value.endDate)) ==>
      reply == Reply(400, Error("Start date and end date are required"))
    ensures reply.status == 200 <==> req.Some? && Truthy(req.value.startDate) && Truthy(req.value.endDate)
    ensures reply.status == 200 ==>
      && reply.body.Data?
      && reply.body.data.dateRange == DateRange(req.value.startDate.value, req.value.endDate.value)
      && 500 <= reply.body.data.totalConversations <= 1499
      && |reply.body.data.topSubjects| == |SubjectNames|
      && (forall k :: 0 <= k < |SubjectNames| ==>
        && reply.body.data.topSubjects[k].name == SubjectNames[k]
        && SubjectBase[k] <= reply.body.data.topSubjects[k].count < SubjectBase[k] + SubjectSpan[k]
        && reply.body.data.topSubjects[k].percentage
           == Percentage(reply.body.data.topSubjects[k].count, reply.body.data.totalConversations))
      && |reply.body.data.topBranches| == |BranchNames|
      && (forall k :: 0 <= k < |BranchNames| ==>
        && reply.body.data.topBranches[k].name == BranchNames[k]
        && BranchBase[k] <= reply.body.data.topBranches[k].count < BranchBase[k] + BranchSpan[k]
        && reply.body.data.topBranches[k].percentage
           == Percentage(reply.body.data.topBranches[k].count, reply.body.data.totalConversations))
  {
    if req.None? {
      return Reply(500, Error("Internal server error"));
    }
    var q := req.value;
    if !Truthy(q.startDate) || !Truthy(q.endDate) {
      return Reply(400, Error("Start date and end date are required"));
    }
    var data := Generate(DateRange(q.startDate.value, q.endDate.value), d, now);
    reply := Reply(200, Data(data));
  }
}
