/** The conversation report route: mock conversation records for one day,
    filtered by category and subcategory and sorted by time, with the
    category taxonomy they are drawn from. */
module ConversationReport {
  import opened Http
  import opened Seqs

  /** One key of the category map with its ordered subcategory list. */
  datatype CategoryEntry = CategoryEntry(name: string, subcategories: seq<string>)

  /** The category map, its entries in the object's key order. */
  const Taxonomy: seq<CategoryEntry> := [
    CategoryEntry("Account Access",
      ["Login Issues", "Password Reset", "Account Security", "Profile Management"]),
    CategoryEntry("Technical Support",
      ["Software Issues", "Hardware Problems", "Network Connectivity", "System Updates"]),
    CategoryEntry("Billing",
      ["Payment Issues", "Invoice Questions", "Subscription Management", "Refund Requests"]),
    CategoryEntry("Product Information",
      ["Product Features", "Pricing Details", "Compatibility", "Documentation"]),
    CategoryEntry("Service Issues",
      ["Downtime", "Performance", "Service Interruption", "Error Reporting"])
  ]

  /** `categoryMap[name]`: the subcategories of the first entry so named. */
  function Lookup(entries: seq<CategoryEntry>, name: string): Option<seq<string>> {
    if entries == [] then None
    else if entries[0].name == name then Some(entries[0].subcategories)
    else Lookup(entries[1..], name)
  }

  /** Every key of the map finds its own entry. */
  lemma LookupTaxonomy(k: nat)
    requires k < |Taxonomy|
    ensures Lookup(Taxonomy, Taxonomy[k].name) == Some(Taxonomy[k].subcategories)
    ensures |Taxonomy[k].subcategories| == 4
  {
  }

  datatype Status = Contained | NotContained | Escalated

  const Statuses: seq<Status> := [Contained, NotContained, Escalated]

  /** A generated record; `timestamp` is the minute of the day. */
  datatype Conversation = Conversation(
    id: string,
    timestamp: int,
    status: Status,
    category: string,
    subcategory: string,
    duration: int,
    userMessages: int,
    botMessages: int)

  /** The integer results of the `Math.floor(Math.random() * k)` draws made
      for one record. */
  datatype Draw = Draw(
    hour: int,
    minute: int,
    status: int,
    category: int,
    subcategory: int,
    duration: int,
    userMessages: int,
    botMessages: int)

  predicate DrawInRange(d: Draw) {
    && 0 <= d.hour < 24
    && 0 <= d.minute < 60
    && 0 <= d.status < |Statuses|
    && 0 <= d.category < |Taxonomy|
    && 0 <= d.subcategory < |Taxonomy[d.category].subcategories|
    && 0 <= d.duration < 1800
    && 0 <= d.userMessages < 10
    && 0 <= d.botMessages < 15
  }

  /** One draw per record; `Math.floor(Math.random() * 15) + 5` records. */
  predicate DrawsInRange(ds: seq<Draw>) {
    5 <= |ds| < 20 && forall i :: 0 <= i < |ds| ==> DrawInRange(ds[i])
  }

  function Digit(n: nat): char
    requires n < 10
  {
    ('0' as int + n) as char
  }

  /** The decimal text of a number, as a template literal writes it. */
  function NatToString(n: nat): string {
    if n < 10 then [Digit(n)] else NatToString(n / 10) + [Digit(n % 10)]
  }

  /** The value of a string of decimal digits. */
  function ParseNat(s: string): int {
    if s == [] then 0 else 10 * ParseNat(s[..|s| - 1]) + (s[|s| - 1] as int - '0' as int)
  }

  lemma {:induction false} ParseShow(n: nat)
    ensures ParseNat(NatToString(n)) == n
  {
    if n >= 10 {
      ParseShow(n / 10);
      var s := NatToString(n / 10) + [Digit(n % 10)];
      assert s[..|s| - 1] == NatToString(n / 10);
    }
  }

  /** `conv-${date}-${index}`. */
  function Id(date: string, index: nat): string {
    "conv-" + date + "-" + NatToString(index)
  }

  /** Two records of one day share an id only if they share an index. */
  lemma IdInjective(date: string, i: nat, j: nat)
    requires Id(date, i) == Id(date, j)
    ensures i == j
  {
    var prefix := "conv-" + date + "-";
    assert NatToString(i) == Id(date, i)[|prefix|..];
    assert NatToString(j) == Id(date, j)[|prefix|..];
    ParseShow(i);
    ParseShow(j);
  }

  /** The record at position `index`, built from its draws. */
  function Record(date: string, index: nat, d: Draw): (c: Conversation)
    requires DrawInRange(d)
    ensures c.id == Id(date, index)
    ensures c.status in Statuses
    ensures 0 <= c.timestamp < 24 * 60
    ensures Lookup(Taxonomy, c.category).Some? && c.subcategory in Lookup(Taxonomy, c.category).value
    ensures 300 <= c.duration <= 2099
    ensures 2 <= c.userMessages <= 11
    ensures 3 <= c.botMessages <= 17
  {
    var entry := Taxonomy[d.category];
    LookupTaxonomy(d.category);
    Conversation(
      Id(date, index),
      60 * d.hour + d.minute,
      Statuses[d.status],
      entry.name,
      entry.subcategories[d.subcategory],
      d.duration + 300,
      d.userMessages + 2,
      d.botMessages + 3)
  }

  /** The `Array.from` step: one record per draw, in draw order. */
  function Records(date: string, draws: seq<Draw>): (r: seq<Conversation>)
    requires DrawsInRange(draws)
    ensures |r| == |draws| && 5 <= |r| <= 19
    ensures forall i :: 0 <= i < |r| ==> r[i] == Record(date, i, draws[i])
  {
    seq(|draws|, i requires 0 <= i < |draws| => Record(date, i, draws[i]))
  }

  /** Records carry pairwise distinct ids. */
  lemma RecordIdsDistinct(date: string, draws: seq<Draw>, i: nat, j: nat)
    requires DrawsInRange(draws)
    requires i < j < |draws|
    ensures Records(date, draws)[i].id != Records(date, draws)[j].id
  {
    if Records(date, draws)[i].id == Records(date, draws)[j].id {
      IdInjective(date, i, j);
    }
  }

  /** Whether the filters keep a record: the category filter applies when a
      category is given, and the subcategory filter only together with it. */
  predicate Matches(c: Conversation, category: Option<string>, subcategory: Option<string>) {
    Truthy(category) ==>
      c.category == category.value && (Truthy(subcategory) ==> c.subcategory == subcategory.value)
  }

  predicate SortedByTime(s: seq<Conversation>) {
    forall p, q :: 0 <= p < q < |s| ==> s[p].timestamp <= s[q].timestamp
  }

  /** `conversations.sort((a, b) => a.timestamp - b.timestamp)`, in place
      (an insertion sort). */
  method SortByTimestamp(a: array<Conversation>)
    modifies a
    ensures SortedByTime(a[..])
    ensures multiset(a[..]) == multiset(old(a[..]))
  {
    if a.Length == 0 {
      return;
    }
    var i := 1;
    while i < a.Length
      invariant 1 <= i <= a.Length
      invariant SortedByTime(a[..i])
      invariant multiset(a[..]) == multiset(old(a[..]))
    {
      Insert(a, i);
      i := i + 1;
    }
    assert a[..a.Length] == a[..];
  }

  /** Moves `a[i]` left past every later-timed record of the sorted prefix
      `a[..i]`. */
  method Insert(a: array<Conversation>, i: nat)
    requires i < a.Length
    requires SortedByTime(a[..i])
    modifies a
    ensures SortedByTime(a[..i + 1])
    ensures multiset(a[..]) == multiset(old(a[..]))
  {
    var j := i;
    while j > 0 && a[j - 1].timestamp > a[j].timestamp
      invariant 0 <= j <= i
      // sorted but for the record being moved, which is at j and precedes
      // nothing it should follow
      invariant forall p, q :: 0 <= p < q <= i && q != j ==> a[p].timestamp <= a[q].timestamp
      invariant multiset(a[..]) == multiset(old(a[..]))
    {
      Swap(a, j);
      j := j - 1;
    }
  }

  /** Exchanges `a[j - 1]` and `a[j]`. */
  method Swap(a: array<Conversation>, j: nat)
    requires 0 < j < a.Length
    modifies a
    ensures forall k :: 0 <= k < a.Length && k != j - 1 && k != j ==> a[k] == old(a[k])
    ensures a[j - 1] == old(a[j]) && a[j] == old(a[j - 1])
    ensures multiset(a[..]) == multiset(old(a[..]))
  {
    a[j - 1], a[j] := a[j], a[j - 1];
  }

  function ByCategory(name: string): Conversation -> bool {
    (c: Conversation) => c.category == name
  }

  function BySubcategory(name: string): Conversation -> bool {
    (c: Conversation) => c.subcategory == name
  }

  function Keeps(category: Option<string>, subcategory: Option<string>): Conversation -> bool {
    (c: Conversation) => Matches(c, category, subcategory)
  }

  /** The handler's filter steps keep exactly the matching records. */
  lemma StagedFilter(s: seq<Conversation>, category: Option<string>, subcategory: Option<string>)
    ensures Filter(s, Keeps(category, subcategory))
         == if !Truthy(category) then s
            else if !Truthy(subcategory) then Filter(s, ByCategory(category.value))
            else Filter(Filter(s, ByCategory(category.value)), BySubcategory(subcategory.value))
  {
    if !Truthy(category) {
      FilterKeepsAll(s, Keeps(category, subcategory));
    } else if !Truthy(subcategory) {
      FilterSame(s, ByCategory(category.value), Keeps(category, subcategory));
    } else {
      FilterTwice(s, ByCategory(category.value), BySubcategory(subcategory.value), Keeps(category, subcategory));
    }
  }

  datatype Report = Report(date: string, conversations: seq<Conversation>, categories: seq<CategoryEntry>)

  /** generateMockConversationData: generate, filter, then sort. */
  method Generate(date: string, category: Option<string>, subcategory: Option<string>, draws: seq<Draw>)
    returns (r: Report)
    requires DrawsInRange(draws)
    ensures r.date == date
    ensures SortedByTime(r.conversations)
    ensures multiset(r.conversations) == multiset(Filter(Records(date, draws), Keeps(category, subcategory)))
    ensures r.categories == Taxonomy
  {
    var conversations := Records(date, draws);
    StagedFilter(conversations, category, subcategory);
    if Truthy(category) {
      conversations := Filter(conversations, ByCategory(category.value));
      if Truthy(subcategory) {
        conversations := Filter(conversations, BySubcategory(subcategory.value));
      }
    }
    conversations := SortedCopy(conversations);
    r := Report(date, conversations, Taxonomy);
  }

  /** The JavaScript array holding `s`, sorted in place. */
  method SortedCopy(s: seq<Conversation>) returns (r: seq<Conversation>)
    ensures SortedByTime(r)
    ensures multiset(r) == multiset(s)
  {
    var a := new Conversation[|s|](k requires 0 <= k < |s| => s[k]);
    assert a[..] == s;
    SortByTimestamp(a);
    r := a[..];
  }

  lemma SameMembers(xs: seq<Conversation>, ys: seq<Conversation>, k: nat)
    requires multiset(xs) == multiset(ys) && k < |xs|
    ensures xs[k] in ys
  {
    assert xs[k] in multiset(xs);
  }

  /** Every listed record was generated and passes the filters; with a
      category given, every record has that category. */
  lemma ListedMatch(r: Report, date: string, category: Option<string>, subcategory: Option<string>, draws: seq<Draw>, k: nat)
    requires DrawsInRange(draws)
    requires multiset(r.conversations) == multiset(Filter(Records(date, draws), Keeps(category, subcategory)))
    requires k < |r.conversations|
    ensures r.conversations[k] in Records(date, draws)
    ensures Matches(r.conversations[k], category, subcategory)
    ensures Truthy(category) ==> r.conversations[k].category == category.value
  {
    var kept := Filter(Records(date, draws), Keeps(category, subcategory));
    SameMembers(r.conversations, kept, k);
    FilterMembers(Records(date, draws), Keeps(category, subcategory));
    var m :| 0 <= m < |kept| && kept[m] == r.conversations[k];
    assert Keeps(category, subcategory)(kept[m]);
  }

  /** Every generated record that passes the filters is listed. */
  lemma MatchListed(r: Report, date: string, category: Option<string>, subcategory: Option<string>, draws: seq<Draw>, k: nat)
    requires DrawsInRange(draws)
    requires multiset(r.conversations) == multiset(Filter(Records(date, draws), Keeps(category, subcategory)))
    requires k < |draws| && Matches(Records(date, draws)[k], category, subcategory)
    ensures Records(date, draws)[k] in r.conversations
  {
    var generated := Records(date, draws);
    var kept := Filter(generated, Keeps(category, subcategory));
    assert Keeps(category, subcategory)(generated[k]);
    FilterMembers(generated, Keeps(category, subcategory));
    var m :| 0 <= m < |kept| && kept[m] == generated[k];
    SameMembers(kept, r.conversations, m);
  }

  /** A subcategory without a category filters nothing out. */
  lemma SubcategoryAloneIgnored(r: Report, date: string, category: Option<string>, subcategory: Option<string>, draws: seq<Draw>)
    requires DrawsInRange(draws)
    requires multiset(r.conversations) == multiset(Filter(Records(date, draws), Keeps(category, subcategory)))
    requires !Truthy(category)
    ensures multiset(r.conversations) == multiset(Records(date, draws))
  {
    StagedFilter(Records(date, draws), category, subcategory);
  }

  /** The fields of the request body the handler reads. */
  datatype Request = Request(date: Option<string>, category: Option<string>, subcategory: Option<string>)

  /** POST /api/reports/conversation. `req` is `None` when `request.json()`
      throws. `parses(d)` says whether `new Date(d)` is a valid date: for
      one that is not, the first record's `toISOString()` throws (there are
      always at least five records), and the `catch` answers 500. */
  method Post(req: Option<Request>, draws: seq<Draw>, parses: string -> bool) returns (reply: Reply<Report>)
    requires DrawsInRange(draws)
    ensures req.None? ==> reply == Reply(500, Error("Failed to generate conversation report"))
    ensures req.Some? && !Truthy(req.value.date) ==> reply == Reply(400, Error("Date is required"))
    ensures req.Some? && Truthy(req.value.date) && !parses(req.value.date.value) ==>
      reply == Reply(500, Error("Failed to generate conversation report"))
    ensures reply.status == 200 <==> req.Some? && Truthy(req.value.date) && parses(req.value.date.value)
    ensures reply.status == 200 ==>
      var q := req.value;
      && reply.body.Data?
      && reply.body.data.date == q.date.value
      && SortedByTime(reply.body.data.conversations)
      && multiset(reply.body.data.conversations)
         == multiset(Filter(Records(q.date.value, draws), Keeps(q.category, q.subcategory)))
      && reply.body.data.categories == Taxonomy
  {
    if req.None? {
      return Reply(500, Error("Failed to generate conversation report"));
    }
    var q := req.value;
    if !Truthy(q.date) {
      return Reply(400, Error("Date is required"));
    }
    if !parses(q.date.value) {
      return Reply(500, Error("Failed to generate conversation report"));
    }
    var data := Generate(q.date.value, q.category, q.subcategory, draws);
    reply := Reply(200, Data(data));
  }
}
