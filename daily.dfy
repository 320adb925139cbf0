/** The daily report route: a mock generator of one day's figures and the
    POST handler that validates the request around it. */
module DailyReport {
  import opened Http
  import opened Seqs

  /** The fixed category list the generator reports on, in this order. */
  const CategoryNames: seq<string> :=
    ["Account Access", "Technical Support", "Billing", "Product Information", "Service Issues"]

  datatype HourBucket = HourBucket(hour: int, count: int)

  datatype CategoryMetric = CategoryMetric(name: string, count: int, avgResolutionTime: int)

  datatype Performance = Performance(
    avgResponseTime: int,
    avgResolutionTime: int,
    avgMessagesPerConversation: int,
    peakHourLoad: int)

  datatype Engagement = Engagement(avgUserEngagementTime: int)

  datatype Report = Report(
    date: string,
    totalConversations: int,
    containedByBot: int,
    notContainedByBot: int,
    escalatedToAgent: int,
    hourlyDistribution: seq<HourBucket>,
    categories: seq<CategoryMetric>,
    performance: Performance,
    userEngagement: Engagement)

  /** The integer results of the generator's `Math.floor(Math.random() * k)`
      draws. */
  datatype Draws = Draws(
    total: int,
    contained: int,
    notContained: int,
    hourly: seq<int>,
    categoryCounts: seq<int>,
    categoryResolution: seq<int>,
    responseTime: int,
    resolutionTime: int,
    messages: int,
    engagementTime: int)

  /** Every draw lies where `Math.floor(Math.random() * k)` can put it:
      0 <= v < k, with k as the generator computes it from the total. */
  predicate InRange(d: Draws) {
    var total := d.total + 200;
    && 0 <= d.total < 500
    && 0 <= d.contained && 5 * d.contained < 4 * total
    && 0 <= d.notContained < total - d.contained
    && |d.hourly| == 24
    && (forall h :: 0 <= h < 24 ==> 0 <= d.hourly[h] && 8 * d.hourly[h] < total)
    && |d.categoryCounts| == |CategoryNames|
    && (forall c :: 0 <= c < |CategoryNames| ==> 0 <= d.categoryCounts[c] && 3 * d.categoryCounts[c] < total)
    && |d.categoryResolution| == |CategoryNames|
    && (forall c :: 0 <= c < |CategoryNames| ==> 0 <= d.categoryResolution[c] < 600)
    && 0 <= d.responseTime < 30
    && 0 <= d.resolutionTime < 600
    && 0 <= d.messages < 6
    && 0 <= d.engagementTime < 600
  }

  function Counts(hs: seq<HourBucket>): (r: seq<int>)
    ensures |r| == |hs| && forall i :: 0 <= i < |hs| ==> r[i] == hs[i].count
  {
    seq(|hs|, i requires 0 <= i < |hs| => hs[i].count)
  }

  /** generateMockDailyData: the volume split, 24 hourly buckets with their
      peak, and one metric per category. */
  function Generate(date: string, d: Draws): (r: Report)
    requires InRange(d)
    ensures r.date == date
    ensures 200 <= r.totalConversations <= 699
    // the split is exact: the escalated share is the remainder
    ensures r.containedByBot + r.notContainedByBot + r.escalatedToAgent == r.totalConversations
    ensures 0 <= r.containedByBot && 5 * r.containedByBot < 4 * r.totalConversations
    ensures 0 <= r.notContainedByBot <= r.totalConversations - r.containedByBot - 1
    ensures r.escalatedToAgent >= 1
    ensures |r.hourlyDistribution| == 24
    ensures forall h :: 0 <= h < 24 ==>
      r.hourlyDistribution[h].hour == h
      && 0 <= r.hourlyDistribution[h].count && 8 * r.hourlyDistribution[h].count < r.totalConversations
    // the peak is the maximum hourly count
    ensures forall h :: 0 <= h < 24 ==> r.hourlyDistribution[h].count <= r.performance.peakHourLoad
    ensures exists h :: 0 <= h < 24 && r.hourlyDistribution[h].count == r.performance.peakHourLoad
    ensures |r.categories| == |CategoryNames|
    ensures forall c :: 0 <= c < |CategoryNames| ==>
      r.categories[c].name == CategoryNames[c]
      && 0 <= r.categories[c].count && 3 * r.categories[c].count < r.totalConversations
      && 300 <= r.categories[c].avgResolutionTime < 900
    ensures 15 <= r.performance.avgResponseTime < 45
    ensures 300 <= r.performance.avgResolutionTime < 900
    ensures 4 <= r.performance.avgMessagesPerConversation < 10
    ensures 300 <= r.userEngagement.avgUserEngagementTime < 900
  {
    var total := d.total + 200;
    var contained := d.contained;
    var notContained := d.notContained;
    var hourly := seq(24, h requires 0 <= h < 24 => HourBucket(h, d.hourly[h]));
    var metrics := seq(|CategoryNames|, c requires 0 <= c < |CategoryNames| =>
      CategoryMetric(CategoryNames[c], d.categoryCounts[c], d.categoryResolution[c] + 300));
    var peak := Max(Counts(hourly));
    Report(
      date, total, contained, notContained, total - contained - notContained,
      hourly, metrics,
      Performance(d.responseTime + 15, d.resolutionTime + 300, d.messages + 4, peak),
      Engagement(d.engagementTime + 300))
  }

  /** The fields of the request body the handler reads; `date` is `None`
      when the body has no such member. */
  datatype Request = Request(date: Option<string>)

  /** POST /api/reports/daily. `req` is `None` when `request.json()` throws. */
  function Post(req: Option<Request>, d: Draws): (reply: Reply<Report>)
    requires InRange(d)
    ensures req.None? ==> reply == Reply(500, Error("Failed to generate daily report"))
    ensures req.Some? && !Truthy(req.value.date) ==> reply == Reply(400, Error("Date is required"))
    ensures reply.status == 200 <==> req.Some? && Truthy(req.value.date)
    ensures reply.status == 200 ==> reply.body.Data? && reply.body.data.date == req.value.date.value
  {
    match req
    case None => Reply(500, Error("Failed to generate daily report"))
    case Some(r) =>
      if !Truthy(r.date) then Reply(400, Error("Date is required"))
      else Reply(200, Data(Generate(r.date.value, d)))
  }
}
