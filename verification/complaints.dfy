/**
 * The complaints board: students file complaints, support them with
 * votes, discuss them in comment threads, filter the list and read the
 * summary figures of the analytics tab.  The list lives in the browser's
 * storage under the key `complaints`.
 */
module Complaints {
  import opened Js
  import opened Store
  import opened Calendar

  datatype Complaint = Complaint(
    id: int,
    title: string,
    description: string,
    category: string,
    status: string,
    priority: string,
    date: string,
    votes: int,
    comments: seq<Comment>)

  /** The fields of the submission form. */
  datatype Draft = Draft(title: string, description: string, category: string, priority: string)

  datatype Filters = Filters(search: string, category: string, status: string, priority: string)

  const BlankDraft := Draft("", "", "Infrastructure", "Medium")
  const NoFilters := Filters("", "All", "All", "All")
  const Statuses := ["All", "Open", "In Progress", "Under Review", "Resolved"]
  const Priorities := ["All", "Low", "Medium", "High"]

  /** The complaints shown before anything has been saved. */
  function Seed(): seq<Complaint> {
    SeedUpTo(5)
  }

  /** The first `n` seed complaints. */
  function SeedUpTo(n: nat): seq<Complaint>
    requires n <= 5
  {
    if n == 0 then [] else SeedUpTo(n - 1) + [SeedComplaint(n)]
  }

  function SeedComplaint(n: nat): Complaint
    requires 1 <= n <= 5
  {
    if n == 1 then
      Complaint(1, "Slow Wi-Fi in Dorm Block C",
        "The internet connection in Block C has been extremely slow for the past week, making it impossible to attend online classes or submit assignments.",
        "Infrastructure", "In Progress", "High", "2025-04-25", 24,
        [Comment(1, "Jane D.", "I'm having the same issue!", "2025-04-26", false),
         Comment(2, "Admin", "IT team has been notified and will check the routers tomorrow.", "2025-04-27", true)])
    else if n == 2 then
      Complaint(2, "Cafeteria Food Quality",
        "The quality of food has deteriorated significantly in the last month. Many students have reported feeling unwell after eating lunch.",
        "Cafeteria", "Under Review", "High", "2025-04-26", 32,
        [Comment(1, "Mark L.", "I found something strange in my soup yesterday.", "2025-04-27", false)])
    else if n == 3 then
      Complaint(3, "Library Closing Too Early",
        "The library now closes at 8 PM instead of 10 PM, which is not enough time for many students who have evening classes.",
        "Academic", "Open", "Medium", "2025-04-28", 15, [])
    else if n == 4 then
      Complaint(4, "Leaking Roof in Science Building",
        "There's a significant leak in the ceiling of Room 302 in the Science Building. It's causing damage and disrupting classes.",
        "Infrastructure", "Resolved", "High", "2025-04-20", 18,
        [Comment(1, "Admin", "Maintenance has fixed the issue as of April 25th. Please let us know if you notice any further problems.", "2025-04-25", true)])
    else
      Complaint(5, "Lack of Vegetarian Options",
        "As a vegetarian student, I find it difficult to get proper nutritious meals as there are very limited vegetarian options in the cafeteria.",
        "Cafeteria", "In Progress", "Medium", "2025-04-24", 22,
        [Comment(1, "Admin", "We're working with our catering service to add more vegetarian options starting next week.", "2025-04-26", true)])
  }

  /** The saved list when there is one, the seed list otherwise. */
  function Initial(stored: Option<seq<Complaint>>): seq<Complaint> {
    if stored.Some? then stored.value else Seed()
  }

  function ComplaintId(c: Complaint): int {
    c.id
  }

  function Votes(c: Complaint): int {
    c.votes
  }

  function Status(c: Complaint): string {
    c.status
  }

  function Category(c: Complaint): string {
    c.category
  }

  // ---------------------------------------------------------------------
  // Filing, voting and commenting
  // ---------------------------------------------------------------------

  /** The form's `required` title and description are filled in, so the browser lets the submit through. */
  predicate Complete(d: Draft) {
    d.title != "" && d.description != ""
  }

  /** The complaint a submission creates. */
  function Filed(cs: seq<Complaint>, d: Draft, today: string): (c: Complaint)
    ensures forall i :: 0 <= i < |cs| ==> cs[i].id < c.id
    ensures cs == [] ==> c.id == 1
    ensures cs != [] ==> exists i :: 0 <= i < |cs| && cs[i].id == c.id - 1
    ensures c.status == "Open" && c.votes == 0 && c.comments == [] && c.date == today
    ensures c.title == d.title && c.description == d.description
    ensures c.category == d.category && c.priority == d.priority
  {
    Complaint(FreshId(cs, ComplaintId), d.title, d.description, d.category, "Open", d.priority, today, 0, [])
  }

  /** A filed complaint goes in front; ids stay unique and one more complaint is open. */
  lemma FiledKeepsIdsUnique(cs: seq<Complaint>, d: Draft, today: string)
    requires UniqueBy(cs, ComplaintId)
    ensures UniqueBy([Filed(cs, d, today)] + cs, ComplaintId)
    ensures OpenIssues([Filed(cs, d, today)] + cs) == OpenIssues(cs) + 1
    ensures ResolvedCount([Filed(cs, d, today)] + cs) == ResolvedCount(cs)
  {
    var c := Filed(cs, d, today);
    PrependFresh(c, cs, ComplaintId);
    assert ([c] + cs)[1..] == cs;
  }

  function HasId(id: int): Complaint -> bool {
    (c: Complaint) => c.id == id
  }

  function AddVote(c: Complaint): Complaint {
    c.(votes := c.votes + 1)
  }

  /** `handleVote(id)`: the complaint with that id gains one vote. */
  function Voted(cs: seq<Complaint>, id: int): (r: seq<Complaint>)
    ensures |r| == |cs|
    ensures forall i :: 0 <= i < |cs| ==> r[i] == if cs[i].id == id then AddVote(cs[i]) else cs[i]
  {
    Update(cs, HasId(id), AddVote)
  }

  /**
   * With unique ids a vote raises the vote total by exactly one when the
   * complaint exists and changes nothing otherwise; ids, statuses and
   * categories are untouched.
   */
  lemma VoteAddsOne(cs: seq<Complaint>, id: int)
    requires UniqueBy(cs, ComplaintId)
    ensures TotalVotes(Voted(cs, id)) == TotalVotes(cs) + (if id in Map(cs, ComplaintId) then 1 else 0)
    ensures Map(Voted(cs, id), ComplaintId) == Map(cs, ComplaintId)
    ensures Map(Voted(cs, id), Status) == Map(cs, Status)
    ensures Map(Voted(cs, id), Category) == Map(cs, Category)
  {
    UpdateSum(cs, HasId(id), AddVote, Votes);
    CountUnique(cs, ComplaintId, id, HasId(id));
    UpdateKeeps(cs, HasId(id), AddVote, ComplaintId);
    UpdateKeeps(cs, HasId(id), AddVote, Status);
    UpdateKeeps(cs, HasId(id), AddVote, Category);
  }

  function AddComment(text: string, today: string): Complaint -> Complaint {
    (c: Complaint) => c.(comments := Reply(c.comments, text, today))
  }

  /**
   * `handleAddComment(id)`: a comment that is blank once trimmed is
   * ignored; otherwise the complaint with that id gets the comment, as
   * typed, at the end of its thread.
   */
  function Commented(cs: seq<Complaint>, id: int, text: string, today: string): (r: seq<Complaint>)
    ensures IsBlank(text) ==> r == cs
    ensures |r| == |cs|
    ensures forall i :: 0 <= i < |cs| && cs[i].id != id ==> r[i] == cs[i]
    ensures forall i :: 0 <= i < |cs| && cs[i].id == id && !IsBlank(text) ==>
              r[i] == cs[i].(comments := Reply(cs[i].comments, text, today))
  {
    if IsBlank(text) then cs else Update(cs, HasId(id), AddComment(text, today))
  }

  // ---------------------------------------------------------------------
  // The list view
  // ---------------------------------------------------------------------

  /** The search term matches title or description, ignoring case; each select is 'All' or equal. */
  predicate Matches(c: Complaint, f: Filters) {
    var q := ToLower(f.search);
    (Includes(ToLower(c.title), q) || Includes(ToLower(c.description), q))
    && (f.category == "All" || c.category == f.category)
    && (f.status == "All" || c.status == f.status)
    && (f.priority == "All" || c.priority == f.priority)
  }

  function Matcher(f: Filters): Complaint -> bool {
    (c: Complaint) => Matches(c, f)
  }

  /** `filteredComplaints`: the matching complaints, in list order. */
  function Visible(cs: seq<Complaint>, f: Filters): (r: seq<Complaint>)
    ensures forall i :: 0 <= i < |r| ==> r[i] in cs && Matches(r[i], f)
    ensures forall i :: 0 <= i < |cs| && Matches(cs[i], f) ==> cs[i] in r
    ensures multiset(r) <= multiset(cs)
  {
    Filter(cs, Matcher(f))
  }

  /** The listed complaints keep their list order, each as often as in the list. */
  lemma VisibleInOrder(cs: seq<Complaint>, f: Filters)
    ensures Subsequence(Visible(cs, f), cs)
    ensures forall i :: 0 <= i < |cs| ==>
              multiset(Visible(cs, f))[cs[i]] == if Matches(cs[i], f) then multiset(cs)[cs[i]] else 0
  {
    FilterCounts(cs, Matcher(f));
    FilterSubsequence(cs, Matcher(f));
  }

  /** With the initial filters every complaint is listed. */
  lemma NoFiltersShowAll(cs: seq<Complaint>)
    ensures Visible(cs, NoFilters) == cs
  {
    forall i | 0 <= i < |cs| ensures Matches(cs[i], NoFilters) {
      IncludesEmpty(ToLower(cs[i].title));
    }
  }

  /** `['All', ...new Set(complaints.map(c => c.category))]` */
  function CategoryOptions(cs: seq<Complaint>): (r: seq<string>)
    ensures |r| >= 1 && r[0] == "All"
    ensures forall i :: 0 <= i < |cs| ==> cs[i].category in r
    ensures forall k :: k in r[1..] ==> exists i :: 0 <= i < |cs| && cs[i].category == k
    ensures forall i, j :: 1 <= i < j < |r| ==> r[i] != r[j]
  {
    var cats := Map(cs, Category);
    var d := Distinct(cats);
    assert forall i :: 0 <= i < |cs| ==> cats[i] in d;
    ["All"] + d
  }

  // ---------------------------------------------------------------------
  // Analytics
  // ---------------------------------------------------------------------

  /** The status chart: complaints per status, in order of first appearance. */
  function StatusCounts(cs: seq<Complaint>): (h: Counts)
    ensures Total(h) == |cs|
    ensures Keys(h) == Distinct(Map(cs, Status))
    ensures forall k :: Lookup(h, k) == multiset(Map(cs, Status))[k]
  {
    var h := Tally(Map(cs, Status));
    TallyTotal(Map(cs, Status));
    TallyKeys(Map(cs, Status));
    forall k ensures Lookup(h, k) == multiset(Map(cs, Status))[k] { TallyCount(Map(cs, Status), k); }
    h
  }

  /** The category chart: complaints per category, in order of first appearance. */
  function CategoryCounts(cs: seq<Complaint>): (h: Counts)
    ensures Total(h) == |cs|
    ensures Keys(h) == Distinct(Map(cs, Category))
    ensures forall k :: Lookup(h, k) == multiset(Map(cs, Category))[k]
  {
    var h := Tally(Map(cs, Category));
    TallyTotal(Map(cs, Category));
    TallyKeys(Map(cs, Category));
    forall k ensures Lookup(h, k) == multiset(Map(cs, Category))[k] { TallyCount(Map(cs, Category), k); }
    h
  }

  function IsResolved(c: Complaint): bool {
    c.status == "Resolved"
  }

  function IsUnresolved(c: Complaint): bool {
    c.status != "Resolved"
  }

  /** The "open issues" figure: complaints whose status is not 'Resolved'. */
  function OpenIssues(cs: seq<Complaint>): nat {
    Count(cs, IsUnresolved)
  }

  function ResolvedCount(cs: seq<Complaint>): nat {
    Count(cs, IsResolved)
  }

  /** Every complaint is either open or resolved. */
  lemma OpenAndResolvedPartition(cs: seq<Complaint>)
    ensures OpenIssues(cs) + ResolvedCount(cs) == |cs|
  {
    FilterComplement(cs, IsUnresolved, IsResolved);
  }

  function TotalVotes(cs: seq<Complaint>): int {
    Sum(cs, Votes)
  }

  /** "Average Supports": the vote total over the number of complaints, rounded; 0 for no complaints. */
  function AverageSupport(cs: seq<Complaint>): (r: int)
    ensures cs == [] ==> r == 0
    ensures cs != [] ==> 2 * |cs| * r - |cs| <= 2 * TotalVotes(cs) < 2 * |cs| * r + |cs|
  {
    if |cs| > 0 then RoundDiv(TotalVotes(cs), |cs|) else 0
  }

  /** "Most Common Category": a category no other category outnumbers, or 'N/A' for no complaints. */
  function MostCommonCategory(cs: seq<Complaint>): (r: string)
    ensures cs == [] ==> r == "N/A"
    ensures cs != [] ==> r in Map(cs, Category)
    ensures cs != [] ==> forall i :: 0 <= i < |cs| ==> multiset(Map(cs, Category))[cs[i].category] <= multiset(Map(cs, Category))[r]
  {
    if |cs| > 0 then
      var cats := Map(cs, Category);
      assert forall i :: 0 <= i < |cs| ==> cs[i].category == cats[i];
      Mode(cats)
    else "N/A"
  }

  /**
   * Of several categories with the highest count, the card shows the one
   * used first: any other category with as many complaints is first used
   * after it.
   */
  lemma MostCommonCategoryFirst(cs: seq<Complaint>)
    ensures var r := MostCommonCategory(cs);
            forall p :: 0 <= p < |cs| && cs[p].category != r
              && multiset(Map(cs, Category))[cs[p].category] == multiset(Map(cs, Category))[r]
              ==> r in Map(cs, Category)[..p]
  {
    var cats := Map(cs, Category);
    assert forall p :: 0 <= p < |cs| ==> cs[p].category == cats[p];
  }

  /** "Resolution Rate": the resolved share as a rounded percentage, between 0 and 100. */
  function ResolutionRate(cs: seq<Complaint>): (r: int)
    ensures 0 <= r <= 100
    ensures cs == [] ==> r == 0
    ensures cs != [] ==> 2 * |cs| * r - |cs| <= 200 * ResolvedCount(cs) < 2 * |cs| * r + |cs|
  {
    if |cs| > 0 then
      PercentBounds(ResolvedCount(cs), |cs|);
      Percent(ResolvedCount(cs), |cs|)
    else 0
  }

  // ---------------------------------------------------------------------
  // The page
  // ---------------------------------------------------------------------

  /** The page's state and its saved copy. */
  class ComplaintsPage {
    var complaints: seq<Complaint>
    /** What the browser's storage holds under `complaints`. */
    var saved: Option<seq<Complaint>>
    var form: Draft
    var showForm: bool
    var filters: Filters
    var newComment: string

    /** The effect that writes the list to storage after every change has run. */
    predicate Saved()
      reads this
    {
      saved == Some(complaints)
    }

    /** Mounting the page: the saved list or the seed list, a blank form, no filters. */
    constructor (stored: Option<seq<Complaint>>)
      ensures complaints == Initial(stored) && Saved()
      ensures form == BlankDraft && !showForm && filters == NoFilters && newComment == ""
    {
      complaints := Initial(stored);
      saved := Some(Initial(stored));
      form := BlankDraft;
      showForm := false;
      filters := NoFilters;
      newComment := "";
    }

    /**
     * Submitting the form: refused while a required field is empty;
     * otherwise the filed complaint goes in front, the form is cleared and
     * closed, and the list is saved.
     */
    method SubmitComplaint(now: Instant) returns (accepted: bool)
      requires ValidInstant(now) && Saved()
      modifies this
      ensures accepted == Complete(old(form))
      ensures accepted ==> complaints == [Filed(old(complaints), old(form), Today(now))] + old(complaints)
      ensures accepted ==> form == BlankDraft && !showForm
      ensures !accepted ==> complaints == old(complaints) && form == old(form) && showForm == old(showForm)
      ensures filters == old(filters) && newComment == old(newComment) && Saved()
    {
      accepted := Complete(form);
      if accepted {
        complaints := [Filed(complaints, form, Today(now))] + complaints;
        saved := Some(complaints);
        form := BlankDraft;
        showForm := false;
      }
    }

    method Vote(id: int)
      requires Saved()
      modifies this
      ensures complaints == Voted(old(complaints), id) && Saved()
      ensures form == old(form) && showForm == old(showForm) && filters == old(filters) && newComment == old(newComment)
    {
      complaints := Voted(complaints, id);
      saved := Some(complaints);
    }

    /** Posting the comment box: ignored when blank, otherwise added and the box cleared. */
    method AddComment(id: int, now: Instant)
      requires ValidInstant(now) && Saved()
      modifies this
      ensures IsBlank(old(newComment)) ==> complaints == old(complaints) && newComment == old(newComment)
      ensures !IsBlank(old(newComment)) ==> complaints == Commented(old(complaints), id, old(newComment), Today(now)) && newComment == ""
      ensures form == old(form) && showForm == old(showForm) && filters == old(filters) && Saved()
    {
      if !IsBlank(newComment) {
        complaints := Commented(complaints, id, newComment, Today(now));
        saved := Some(complaints);
        newComment := "";
      }
    }
  }
}
