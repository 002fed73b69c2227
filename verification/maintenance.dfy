/**
 * The maintenance desk: residents report faults, support them with votes,
 * discuss them, filter and sort the list and read the monthly figures of
 * the analytics tab.  The list lives in the browser's storage under the key
 * `maintenanceRequests`.
 */
module Maintenance {
  import opened Js
  import opened Store
  import opened Calendar

  /** A maintenance request; `kind` is the source's `type` field, a missing or null date is `None`. */
  datatype Request = Request(
    id: int,
    title: string,
    description: string,
    kind: string,
    status: string,
    priority: string,
    location: string,
    date: string,
    scheduledDate: Option<string>,
    completedDate: Option<string>,
    votes: int,
    comments: seq<Comment>)

  /** The fields of the request form. */
  datatype Draft = Draft(title: string, description: string, kind: string, priority: string, location: string)

  datatype Filters = Filters(
    search: string, kind: string, status: string, priority: string, location: string, sortBy: string)

  const BlankDraft := Draft("", "", "Electrical", "Medium", "")
  const NoFilters := Filters("", "All", "All", "All", "All", "date")
  const Statuses := ["All", "Open", "In Progress", "Scheduled", "Resolved"]
  const Priorities := ["All", "Low", "Medium", "High"]

  /** The requests shown before anything has been saved. */
  function Seed(): seq<Request> {
    SeedUpTo(7)
  }

  /** The first `n` seed requests. */
  function SeedUpTo(n: nat): seq<Request>
    requires n <= 7
  {
    if n == 0 then [] else SeedUpTo(n - 1) + [SeedRequest(n)]
  }

  function SeedRequest(n: nat): Request
    requires 1 <= n <= 7
  {
    if n == 1 then
      Request(1, "Broken Heating in Room 302",
        "The heating system in Room 302 is not working properly. The room is very cold, especially at night.",
        "HVAC", "In Progress", "High", "Science Building", "2025-04-22", Some("2025-04-28"), None, 15,
        [Comment(1, "Taylor M.", "It's getting worse! Now even during the day it's freezing.", "2025-04-23", false),
         Comment(2, "Maintenance Staff", "We've ordered the replacement part. Should arrive by the 27th.", "2025-04-24", true)])
    else if n == 2 then
      Request(2, "Leaking Faucet in Women's Bathroom",
        "The middle sink in the first floor women's bathroom is constantly leaking, causing water wastage and floor damage.",
        "Plumbing", "Scheduled", "Medium", "Library", "2025-04-24", Some("2025-05-02"), None, 8,
        [Comment(1, "Maintenance Staff", "Scheduled for repair on May 2nd.", "2025-04-26", true)])
    else if n == 3 then
      Request(3, "Flickering Lights in Hallway",
        "The lights in the main hallway of the Business Building have been flickering for the past week. It's distracting during classes.",
        "Electrical", "Open", "Medium", "Business Building", "2025-04-26", None, None, 12, [])
    else if n == 4 then
      Request(4, "Broken Door Handle",
        "The handle on the main entrance door to the dormitory is loose and about to fall off. It's difficult to open and close the door.",
        "Structural", "Resolved", "High", "Dormitory Block A", "2025-04-20", Some("2025-04-21"), Some("2025-04-21"), 23,
        [Comment(1, "Sam K.", "This is dangerous, someone could get locked in or out!", "2025-04-20", false),
         Comment(2, "Maintenance Staff", "Emergency repair completed. Door handle has been replaced.", "2025-04-21", true)])
    else if n == 5 then
      Request(5, "Clogged Drain in Shower",
        "The shower drain in the second floor men's locker room is completely clogged. Water is backing up during use.",
        "Plumbing", "In Progress", "Medium", "Athletics Building", "2025-04-25", Some("2025-04-29"), None, 7,
        [Comment(1, "Maintenance Staff", "Initial assessment done. Will need specialized equipment to clear the blockage completely.", "2025-04-27", true)])
    else if n == 6 then
      Request(6, "Damaged Ceiling Tile",
        "There's a water-damaged ceiling tile in Room 105 that looks like it could fall at any moment.",
        "Structural", "Scheduled", "Low", "Humanities Building", "2025-04-23", Some("2025-05-05"), None, 5,
        [Comment(1, "Maintenance Staff", "Scheduled for replacement during the upcoming maintenance window.", "2025-04-25", true)])
    else
      Request(7, "AC Not Working in Computer Lab",
        "The air conditioning in the main computer lab is not functioning. Room is overheating and affecting the computers' performance.",
        "HVAC", "Resolved", "High", "Technology Center", "2025-04-19", Some("2025-04-20"), Some("2025-04-20"), 31,
        [Comment(1, "Prof. Johnson", "This is affecting my ability to teach the programming class.", "2025-04-19", false),
         Comment(2, "Maintenance Staff", "Emergency repair completed. The system needed a refrigerant recharge.", "2025-04-20", true)])
  }

  /** The saved list when there is one, the seed list otherwise. */
  function Initial(stored: Option<seq<Request>>): seq<Request> {
    if stored.Some? then stored.value else Seed()
  }

  function RequestId(r: Request): int {
    r.id
  }

  function Votes(r: Request): int {
    r.votes
  }

  function Status(r: Request): string {
    r.status
  }

  function Kind(r: Request): string {
    r.kind
  }

  function Location(r: Request): string {
    r.location
  }

  // ---------------------------------------------------------------------
  // Reporting, voting and commenting
  // ---------------------------------------------------------------------

  /** The form's `required` title, description and location are filled in. */
  predicate Complete(d: Draft) {
    d.title != "" && d.description != "" && d.location != ""
  }

  /** The request a submission creates: open, unscheduled, without votes or comments. */
  function Filed(rs: seq<Request>, d: Draft, today: string): (r: Request)
    ensures forall i :: 0 <= i < |rs| ==> rs[i].id < r.id
    ensures rs == [] ==> r.id == 1
    ensures rs != [] ==> exists i :: 0 <= i < |rs| && rs[i].id == r.id - 1
    ensures r.status == "Open" && r.votes == 0 && r.comments == [] && r.date == today
    ensures r.scheduledDate == None && r.completedDate == None
    ensures r.title == d.title && r.description == d.description && r.kind == d.kind
    ensures r.priority == d.priority && r.location == d.location
  {
    Request(FreshId(rs, RequestId), d.title, d.description, d.kind, "Open", d.priority, d.location,
      today, None, None, 0, [])
  }

  /** A filed request goes in front; ids stay unique and one more request is pending. */
  lemma FiledKeepsIdsUnique(rs: seq<Request>, d: Draft, today: string)
    requires UniqueBy(rs, RequestId)
    ensures UniqueBy([Filed(rs, d, today)] + rs, RequestId)
    ensures Pending([Filed(rs, d, today)] + rs) == Pending(rs) + 1
    ensures ResolvedCount([Filed(rs, d, today)] + rs) == ResolvedCount(rs)
  {
    var r := Filed(rs, d, today);
    PrependFresh(r, rs, RequestId);
    assert ([r] + rs)[1..] == rs;
  }

  function HasId(id: int): Request -> bool {
    (r: Request) => r.id == id
  }

  function AddVote(r: Request): Request {
    r.(votes := r.votes + 1)
  }

  /** `handleVote(id)`: the request with that id gains one vote. */
  function Voted(rs: seq<Request>, id: int): (r: seq<Request>)
    ensures |r| == |rs|
    ensures forall i :: 0 <= i < |rs| ==> r[i] == if rs[i].id == id then AddVote(rs[i]) else rs[i]
  {
    Update(rs, HasId(id), AddVote)
  }

  /**
   * With unique ids a vote raises the vote total by exactly one when the
   * request exists and changes nothing otherwise; ids, statuses and types
   * are untouched.
   */
  lemma VoteAddsOne(rs: seq<Request>, id: int)
    requires UniqueBy(rs, RequestId)
    ensures Sum(Voted(rs, id), Votes) == Sum(rs, Votes) + (if id in Map(rs, RequestId) then 1 else 0)
    ensures Map(Voted(rs, id), RequestId) == Map(rs, RequestId)
    ensures Map(Voted(rs, id), Status) == Map(rs, Status)
    ensures Map(Voted(rs, id), Kind) == Map(rs, Kind)
  {
    UpdateSum(rs, HasId(id), AddVote, Votes);
    CountUnique(rs, RequestId, id, HasId(id));
    UpdateKeeps(rs, HasId(id), AddVote, RequestId);
    UpdateKeeps(rs, HasId(id), AddVote, Status);
    UpdateKeeps(rs, HasId(id), AddVote, Kind);
  }

  function AddComment(text: string, today: string): Request -> Request {
    (r: Request) => r.(comments := Reply(r.comments, text, today))
  }

  /**
   * `handleAddComment(id)`: a comment that is blank once trimmed is
   * ignored; otherwise the request with that id gets the comment at the end
   * of its thread.
   */
  function Commented(rs: seq<Request>, id: int, text: string, today: string): (r: seq<Request>)
    ensures IsBlank(text) ==> r == rs
    ensures |r| == |rs|
    ensures forall i :: 0 <= i < |rs| && rs[i].id != id ==> r[i] == rs[i]
    ensures forall i :: 0 <= i < |rs| && rs[i].id == id && !IsBlank(text) ==>
              r[i] == rs[i].(comments := Reply(rs[i].comments, text, today))
  {
    if IsBlank(text) then rs else Update(rs, HasId(id), AddComment(text, today))
  }

  // ---------------------------------------------------------------------
  // The list view
  // ---------------------------------------------------------------------

  /**
   * The search term matches title, description or location ignoring case;
   * the location select matches by case-sensitive substring; the other
   * selects are 'All' or equal.
   */
  predicate Matches(r: Request, f: Filters) {
    var q := ToLower(f.search);
    (Includes(ToLower(r.title), q) || Includes(ToLower(r.description), q) || Includes(ToLower(r.location), q))
    && (f.kind == "All" || r.kind == f.kind)
    && (f.status == "All" || r.status == f.status)
    && (f.priority == "All" || r.priority == f.priority)
    && (f.location == "All" || Includes(r.location, f.location))
  }

  function Matcher(f: Filters): Request -> bool {
    (r: Request) => Matches(r, f)
  }

  /** The matching requests, in list order. */
  function Visible(rs: seq<Request>, f: Filters): (r: seq<Request>)
    ensures forall i :: 0 <= i < |r| ==> r[i] in rs && Matches(r[i], f)
    ensures forall i :: 0 <= i < |rs| && Matches(rs[i], f) ==> rs[i] in r
    ensures multiset(r) <= multiset(rs)
  {
    Filter(rs, Matcher(f))
  }

  /** The listed requests keep their list order, each as often as in the list. */
  lemma VisibleInOrder(rs: seq<Request>, f: Filters)
    ensures Subsequence(Visible(rs, f), rs)
    ensures forall i :: 0 <= i < |rs| ==>
              multiset(Visible(rs, f))[rs[i]] == if Matches(rs[i], f) then multiset(rs)[rs[i]] else 0
  {
    FilterCounts(rs, Matcher(f));
    FilterSubsequence(rs, Matcher(f));
  }

  /** With the initial filters every request is listed (before sorting). */
  lemma NoFiltersShowAll(rs: seq<Request>)
    ensures Visible(rs, NoFilters) == rs
  {
    forall i | 0 <= i < |rs| ensures Matches(rs[i], NoFilters) {
      IncludesEmpty(ToLower(rs[i].title));
    }
  }

  /**
   * The comparator as a sort key: newest date first, highest priority
   * first, most votes first, or no reordering for any other choice.
   */
  function SortKey(sortBy: string): Request -> int {
    if sortBy == "date" then (r: Request) => -DateValue(r.date)
    else if sortBy == "priority" then (r: Request) => PriorityRank(r.priority)
    else if sortBy == "votes" then (r: Request) => -r.votes
    else (r: Request) => 0
  }

  /** `filteredRequests`: the matching requests in the chosen order, ties in list order. */
  function Listed(rs: seq<Request>, f: Filters): (r: seq<Request>)
    ensures multiset(r) == multiset(Visible(rs, f))
    ensures f.sortBy == "date" ==> forall i, j :: 0 <= i < j < |r| ==> DateValue(r[i].date) >= DateValue(r[j].date)
    ensures f.sortBy == "priority" ==> forall i, j :: 0 <= i < j < |r| ==> PriorityRank(r[i].priority) <= PriorityRank(r[j].priority)
    ensures f.sortBy == "votes" ==> forall i, j :: 0 <= i < j < |r| ==> r[i].votes >= r[j].votes
    ensures f.sortBy !in {"date", "priority", "votes"} ==> r == Visible(rs, f)
  {
    var key := SortKey(f.sortBy);
    var r := SortByKey(Visible(rs, f), key);
    assert forall i, j :: 0 <= i < j < |r| ==> key(r[i]) <= key(r[j]);
    assert f.sortBy !in {"date", "priority", "votes"} ==> r == Visible(rs, f) by {
      if f.sortBy !in {"date", "priority", "votes"} {
        ConstantKeyIdentity(Visible(rs, f), key);
      }
    }
    r
  }

  /** Requests the chosen order ranks equal keep the order they have in the list. */
  lemma ListedKeepsTies(rs: seq<Request>, f: Filters, k: int)
    ensures Filter(Listed(rs, f), KeyIs(SortKey(f.sortBy), k)) == Filter(Visible(rs, f), KeyIs(SortKey(f.sortBy), k))
  {
    SortStable(Visible(rs, f), SortKey(f.sortBy), k);
  }

  /** Sorting by votes lists a request ahead of every request with fewer votes. */
  lemma MostVotedFirst(rs: seq<Request>, f: Filters, i: nat, j: nat)
    requires f.sortBy == "votes"
    requires i < |Listed(rs, f)| && j < |Listed(rs, f)|
    requires Listed(rs, f)[i].votes > Listed(rs, f)[j].votes
    ensures i < j
  {
  }

  /** `['All', ...new Set(requests.map(r => r.type))]` */
  function KindOptions(rs: seq<Request>): (r: seq<string>)
    ensures |r| >= 1 && r[0] == "All"
    ensures forall i :: 0 <= i < |rs| ==> rs[i].kind in r
    ensures forall k :: k in r[1..] ==> exists i :: 0 <= i < |rs| && rs[i].kind == k
    ensures forall i, j :: 1 <= i < j < |r| ==> r[i] != r[j]
  {
    var ks := Map(rs, Kind);
    assert forall i :: 0 <= i < |rs| ==> ks[i] in Distinct(ks);
    ["All"] + Distinct(ks)
  }

  /** `['All', ...new Set(requests.map(r => r.location))]` */
  function LocationOptions(rs: seq<Request>): (r: seq<string>)
    ensures |r| >= 1 && r[0] == "All"
    ensures forall i :: 0 <= i < |rs| ==> rs[i].location in r
    ensures forall k :: k in r[1..] ==> exists i :: 0 <= i < |rs| && rs[i].location == k
    ensures forall i, j :: 1 <= i < j < |r| ==> r[i] != r[j]
  {
    var ls := Map(rs, Location);
    assert forall i :: 0 <= i < |rs| ==> ls[i] in Distinct(ls);
    ["All"] + Distinct(ls)
  }

  /**
   * Choosing a request's own location in the select, all else unchanged,
   * keeps that request listed.
   */
  lemma LocationOptionKeepsOwn(rs: seq<Request>, f: Filters, i: nat)
    requires i < |rs| && Matches(rs[i], f.(location := "All"))
    ensures rs[i] in Visible(rs, f.(location := rs[i].location))
  {
    assert IsPrefix(rs[i].location, rs[i].location);
    assert Includes(rs[i].location, rs[i].location);
  }

  datatype Support = Significant | Moderate | NeedsMore

  /** The support line of the detail view: more than 10 votes, more than 5, or fewer. */
  function SupportOf(votes: int): (s: Support)
    ensures s == Significant <==> votes > 10
    ensures s == NeedsMore <==> votes <= 5
  {
    if votes > 10 then Significant else if votes > 5 then Moderate else NeedsMore
  }

  function SupportRank(s: Support): nat {
    match s
    case NeedsMore => 0
    case Moderate => 1
    case Significant => 2
  }

  /** A vote never lowers the support level. */
  lemma SupportMonotone(a: int, b: int)
    requires a <= b
    ensures SupportRank(SupportOf(a)) <= SupportRank(SupportOf(b))
  {
  }

  function SupportText(s: Support): string {
    match s
    case Significant => "This issue has significant community support"
    case Moderate => "This issue has moderate community support"
    case NeedsMore => "This issue needs more community support"
  }

  // ---------------------------------------------------------------------
  // Analytics
  // ---------------------------------------------------------------------

  /** The status chart: requests per status, in order of first appearance. */
  function StatusCounts(rs: seq<Request>): (h: Counts)
    ensures Total(h) == |rs|
    ensures Keys(h) == Distinct(Map(rs, Status))
    ensures forall k :: Lookup(h, k) == multiset(Map(rs, Status))[k]
  {
    var h := Tally(Map(rs, Status));
    TallyTotal(Map(rs, Status));
    TallyKeys(Map(rs, Status));
    forall k ensures Lookup(h, k) == multiset(Map(rs, Status))[k] { TallyCount(Map(rs, Status), k); }
    h
  }

  /** The type chart: requests per type, in order of first appearance. */
  function KindCounts(rs: seq<Request>): (h: Counts)
    ensures Total(h) == |rs|
    ensures Keys(h) == Distinct(Map(rs, Kind))
    ensures forall k :: Lookup(h, k) == multiset(Map(rs, Kind))[k]
  {
    var h := Tally(Map(rs, Kind));
    TallyTotal(Map(rs, Kind));
    TallyKeys(Map(rs, Kind));
    forall k ensures Lookup(h, k) == multiset(Map(rs, Kind))[k] { TallyCount(Map(rs, Kind), k); }
    h
  }

  /** `request.date.substring(0, 7)`: the "YYYY-MM" part of the date. */
  function Month(r: Request): string {
    Prefix(r.date, 7)
  }

  /** The months of the monthly chart: every month some request falls in, once each, in ascending order. */
  function Months(rs: seq<Request>): (ms: seq<string>)
    ensures StrSorted(ms)
    ensures forall m :: multiset(ms)[m] == if m in Map(rs, Month) then 1 else 0
  {
    var months := Map(rs, Month);
    TallyKeys(months);
    var d := Keys(Tally(months));
    forall m ensures multiset(d)[m] == if m in months then 1 else 0 {
      DistinctOnce(d, m);
    }
    SortStrings(d)
  }

  /** The monthly chart's values: for each month, how many requests fall in it. */
  function MonthlyValues(rs: seq<Request>): (vs: seq<nat>)
    ensures |vs| == |Months(rs)|
    ensures forall i :: 0 <= i < |vs| ==> vs[i] == multiset(Map(rs, Month))[Months(rs)[i]]
  {
    var h := Tally(Map(rs, Month));
    forall i | 0 <= i < |Months(rs)| ensures Lookup(h, Months(rs)[i]) == multiset(Map(rs, Month))[Months(rs)[i]] {
      TallyCount(Map(rs, Month), Months(rs)[i]);
    }
    Map(Months(rs), (m: string) => Lookup(h, m))
  }

  /** `const [year, month] = m.split('-'); `${month}/${year.substring(2)}`` */
  function MonthLabel(m: string): string {
    var parts := Split(m, '-');
    var month := if |parts| >= 2 then parts[1] else "undefined";
    month + "/" + Drop(parts[0], 2)
  }

  /** For a well-formed date the label is the two-digit month, a slash and the two-digit year. */
  lemma MonthLabelOfDate(d: Date)
    requires Valid(d)
    ensures MonthLabel(Prefix(Format(d), 7)) == Pad2(d.month) + "/" + Pad2(d.year % 100)
  {
    var y := Pad4(d.year);
    var m := Pad2(d.month);
    assert Prefix(Format(d), 7) == y + ['-'] + m;
    assert '-' !in y by {
      forall i | 0 <= i < |y| ensures y[i] != '-' { assert IsDigit(y[i]); }
    }
    assert '-' !in m by {
      assert IsDigit(m[0]) && IsDigit(m[1]);
    }
    SplitTwo(y, m, '-');
    assert Drop(y, 2) == Pad2(d.year % 100);
  }

  /** The chart's labels, one per month. */
  function MonthLabels(rs: seq<Request>): (ls: seq<string>)
    ensures |ls| == |Months(rs)|
    ensures forall i :: 0 <= i < |ls| ==> ls[i] == MonthLabel(Months(rs)[i])
  {
    Map(Months(rs), MonthLabel)
  }

  function IsResolved(r: Request): bool {
    r.status == "Resolved"
  }

  function IsPending(r: Request): bool {
    r.status != "Resolved"
  }

  /** The "Resolved" figure. */
  function ResolvedCount(rs: seq<Request>): nat {
    Count(rs, IsResolved)
  }

  /** The "Pending" figure: requests whose status is not 'Resolved'. */
  function Pending(rs: seq<Request>): nat {
    Count(rs, IsPending)
  }

  /** The resolved and pending figures add up to the "Total Requests" figure. */
  lemma ResolvedAndPendingPartition(rs: seq<Request>)
    ensures ResolvedCount(rs) + Pending(rs) == |rs|
  {
    FilterComplement(rs, IsResolved, IsPending);
  }

  // ---------------------------------------------------------------------
  // The page
  // ---------------------------------------------------------------------

  /** The page's state and its saved copy. */
  class MaintenancePage {
    var requests: seq<Request>
    /** What the browser's storage holds under `maintenanceRequests`. */
    var saved: Option<seq<Request>>
    var form: Draft
    var showForm: bool
    var filters: Filters
    var newComment: string

    /** The effect that writes the list to storage after every change has run. */
    predicate Saved()
      reads this
    {
      saved == Some(requests)
    }

    /** Mounting the page: the saved list or the seed list, a blank form, the initial filters. */
    constructor (stored: Option<seq<Request>>)
      ensures requests == Initial(stored) && Saved()
      ensures form == BlankDraft && !showForm && filters == NoFilters && newComment == ""
    {
      requests := Initial(stored);
      saved := Some(Initial(stored));
      form := BlankDraft;
      showForm := false;
      filters := NoFilters;
      newComment := "";
    }

    /**
     * Submitting the form: refused while a required field is empty;
     * otherwise the filed request goes in front, the form is reset and
     * closed, and the list is saved.
     */
    method SubmitRequest(now: Instant) returns (accepted: bool)
      requires ValidInstant(now) && Saved()
      modifies this
      ensures accepted == Complete(old(form))
      ensures accepted ==> requests == [Filed(old(requests), old(form), Today(now))] + old(requests)
      ensures accepted ==> form == BlankDraft && !showForm
      ensures !accepted ==> requests == old(requests) && form == old(form) && showForm == old(showForm)
      ensures filters == old(filters) && newComment == old(newComment) && Saved()
    {
      accepted := Complete(form);
      if accepted {
        requests := [Filed(requests, form, Today(now))] + requests;
        saved := Some(requests);
        form := BlankDraft;
        showForm := false;
      }
    }

    method Vote(id: int)
      requires Saved()
      modifies this
      ensures requests == Voted(old(requests), id) && Saved()
      ensures form == old(form) && showForm == old(showForm) && filters == old(filters) && newComment == old(newComment)
    {
      requests := Voted(requests, id);
      saved := Some(requests);
    }

    /** Posting the comment box: ignored when blank, otherwise added and the box cleared. */
    method AddComment(id: int, now: Instant)
      requires ValidInstant(now) && Saved()
      modifies this
      ensures IsBlank(old(newComment)) ==> requests == old(requests) && newComment == old(newComment)
      ensures !IsBlank(old(newComment)) ==> requests == Commented(old(requests), id, old(newComment), Today(now)) && newComment == ""
      ensures form == old(form) && showForm == old(showForm) && filters == old(filters) && Saved()
    {
      if !IsBlank(newComment) {
        requests := Commented(requests, id, newComment, Today(now));
        saved := Some(requests);
        newComment := "";
      }
    }
  }
}
