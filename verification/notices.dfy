/**
 * The notice board: notices with an audience and an expiry date, likes,
 * comment threads, pinning, and a filtered, sorted list with three tabs
 * (all notices, pinned notices, the visitor's own notices).  The list lives
 * in the browser's storage under the key `notices`.
 */
module Notices {
  import opened Js
  import opened Store
  import opened Calendar

  datatype Notice = Notice(
    id: int,
    title: string,
    content: string,
    category: string,
    priority: string,
    audience: seq<string>,
    author: string,
    date: string,
    expiry: string,
    pinned: bool,
    likes: int,
    comments: seq<Comment>)

  /** The fields of the notice form; `expiry` is "" until a date is picked. */
  datatype Draft = Draft(
    title: string, content: string, category: string, priority: string, audience: seq<string>, expiry: string)

  datatype Filters = Filters(
    search: string, category: string, priority: string, audience: string, sortBy: string, showExpired: bool)

  const BlankDraft := Draft("", "", "General", "Medium", [], "")
  const NoFilters := Filters("", "All", "All", "All", "date", false)
  const Categories := ["All", "General", "Academic", "Career", "Events", "Maintenance", "Security"]
  const Priorities := ["All", "Low", "Medium", "High"]
  const AudienceOptions := ["All", "Students", "Faculty", "Staff", "Administration"]

  /** The notices shown before anything has been saved. */
  function Seed(): seq<Notice> {
    SeedUpTo(3)
  }

  /** The first `n` seed notices. */
  function SeedUpTo(n: nat): seq<Notice>
    requires n <= 3
  {
    if n == 0 then [] else SeedUpTo(n - 1) + [SeedNotice(n)]
  }

  function SeedNotice(n: nat): Notice
    requires 1 <= n <= 3
  {
    if n == 1 then
      Notice(1, "Campus Power Maintenance",
        "There will be scheduled power maintenance on May 15th from 8:00 AM to 12:00 PM. All academic buildings will be affected. Please save your work and log off computers before this time.",
        "Maintenance", "High", ["Students", "Faculty"], "Facilities Department", "2025-05-05", "2025-05-16", true, 24,
        [Comment(1, "Alex Johnson", "Will the library have backup power?", "2025-05-05T10:30:00", false),
         Comment(2, "Facilities Dept", "Yes, the library will have limited backup power for essential systems.", "2025-05-05T11:15:00", true)])
    else if n == 2 then
      Notice(2, "Summer Internship Opportunities",
        "Applications are now open for summer internships with our industry partners. Deadline for submission is May 30th. Visit the career center for more information.",
        "Career", "Medium", ["Students"], "Career Services", "2025-05-03", "2025-05-31", false, 56, [])
    else
      Notice(3, "New Cafeteria Menu Options",
        "Starting next week, we're introducing new healthy menu options in the main cafeteria, including vegan and gluten-free choices.",
        "General", "Low", ["Students", "Faculty", "Staff"], "Food Services", "2025-05-01", "2025-05-31", false, 102,
        [Comment(1, "Taylor Smith", "Finally! Been waiting for more vegan options.", "2025-05-01T14:20:00", false)])
  }

  /** The saved list when there is one, the seed list otherwise. */
  function Initial(stored: Option<seq<Notice>>): seq<Notice> {
    if stored.Some? then stored.value else Seed()
  }

  function NoticeId(n: Notice): int {
    n.id
  }

  function Likes(n: Notice): int {
    n.likes
  }

  // ---------------------------------------------------------------------
  // The form
  // ---------------------------------------------------------------------

  /** The form's `required` title and content are filled in. */
  predicate Complete(d: Draft) {
    d.title != "" && d.content != ""
  }

  /**
   * An audience checkbox: ticking it appends the audience, unticking it
   * removes every copy of it.
   */
  function ToggledAudience(audience: seq<string>, a: string, checked: bool): (r: seq<string>)
    ensures checked ==> r == audience + [a]
    ensures !checked ==> a !in r && forall x :: x != a ==> (x in r <==> x in audience)
    ensures !checked ==> multiset(r) <= multiset(audience)
  {
    if checked then audience + [a] else Filter(audience, (x: string) => x != a)
  }

  /** Ticking an audience that is not ticked and unticking it again restores the list. */
  lemma TickUntick(audience: seq<string>, a: string)
    requires a !in audience
    ensures ToggledAudience(ToggledAudience(audience, a, true), a, false) == audience
  {
    var keep := (x: string) => x != a;
    FilterAppend(audience, [a], keep);
    assert Filter([a], keep) == [];
  }

  /** The notice a submission creates: by "You", unpinned, without likes or comments. */
  function Posted(ns: seq<Notice>, d: Draft, today: string): (n: Notice)
    ensures forall i :: 0 <= i < |ns| ==> ns[i].id < n.id
    ensures ns == [] ==> n.id == 1
    ensures ns != [] ==> exists i :: 0 <= i < |ns| && ns[i].id == n.id - 1
    ensures n.author == "You" && !n.pinned && n.likes == 0 && n.comments == [] && n.date == today
    ensures n.title == d.title && n.content == d.content && n.category == d.category
    ensures n.priority == d.priority && n.audience == d.audience && n.expiry == d.expiry
  {
    Notice(FreshId(ns, NoticeId), d.title, d.content, d.category, d.priority, d.audience, "You", today,
      d.expiry, false, 0, [])
  }

  /** A posted notice goes in front with a new id and shows under "My Notices". */
  lemma PostedIsMine(ns: seq<Notice>, d: Draft, today: string)
    requires UniqueBy(ns, NoticeId)
    ensures UniqueBy([Posted(ns, d, today)] + ns, NoticeId)
    ensures OnTab(Posted(ns, d, today), "myNotices")
  {
    PrependFresh(Posted(ns, d, today), ns, NoticeId);
  }

  // ---------------------------------------------------------------------
  // Likes, pins and comments
  // ---------------------------------------------------------------------

  function HasId(id: int): Notice -> bool {
    (n: Notice) => n.id == id
  }

  function AddLike(n: Notice): Notice {
    n.(likes := n.likes + 1)
  }

  /** `handleLike(id)`: the notice with that id gains one like. */
  function Liked(ns: seq<Notice>, id: int): (r: seq<Notice>)
    ensures |r| == |ns|
    ensures forall i :: 0 <= i < |ns| ==> r[i] == if ns[i].id == id then AddLike(ns[i]) else ns[i]
  {
    Update(ns, HasId(id), AddLike)
  }

  /** With unique ids a like raises the like total by one exactly when the notice exists. */
  lemma LikeAddsOne(ns: seq<Notice>, id: int)
    requires UniqueBy(ns, NoticeId)
    ensures Sum(Liked(ns, id), Likes) == Sum(ns, Likes) + (if id in Map(ns, NoticeId) then 1 else 0)
    ensures Map(Liked(ns, id), NoticeId) == Map(ns, NoticeId)
  {
    UpdateSum(ns, HasId(id), AddLike, Likes);
    CountUnique(ns, NoticeId, id, HasId(id));
    UpdateKeeps(ns, HasId(id), AddLike, NoticeId);
  }

  function FlipPin(n: Notice): Notice {
    n.(pinned := !n.pinned)
  }

  /** `handlePinNotice(id)`: the notice with that id is pinned if it was not, unpinned if it was. */
  function PinToggled(ns: seq<Notice>, id: int): (r: seq<Notice>)
    ensures |r| == |ns|
    ensures forall i :: 0 <= i < |ns| && ns[i].id == id ==> r[i] == ns[i].(pinned := !ns[i].pinned)
    ensures forall i :: 0 <= i < |ns| && ns[i].id != id ==> r[i] == ns[i]
  {
    Update(ns, HasId(id), FlipPin)
  }

  /** Pressing the pin button twice leaves the list as it was. */
  lemma PinTwiceRestores(ns: seq<Notice>, id: int)
    ensures PinToggled(PinToggled(ns, id), id) == ns
  {
    var r := PinToggled(PinToggled(ns, id), id);
    forall i | 0 <= i < |ns| ensures r[i] == ns[i] {
      if ns[i].id == id {
        assert PinToggled(ns, id)[i].id == id;
      }
    }
  }

  /**
   * `handleAddComment(id)`: a blank comment is ignored; otherwise the
   * notice with that id gets the comment at the end of its thread, with the
   * clock reading `stamp` as its id and the full ISO time as its date.
   */
  function Commented(ns: seq<Notice>, id: int, text: string, now: Instant, stamp: int): (r: seq<Notice>)
    requires ValidInstant(now)
    ensures IsBlank(text) ==> r == ns
    ensures |r| == |ns|
    ensures forall i :: 0 <= i < |ns| && ns[i].id != id ==> r[i] == ns[i]
    ensures forall i :: 0 <= i < |ns| && ns[i].id == id && !IsBlank(text) ==>
              r[i] == ns[i].(comments := ns[i].comments + [Comment(stamp, "You", text, IsoString(now), false)])
  {
    if IsBlank(text) then ns else Update(ns, HasId(id), AppendComment(Comment(stamp, "You", text, IsoString(now), false)))
  }

  function AppendComment(c: Comment): Notice -> Notice {
    (n: Notice) => n.(comments := n.comments + [c])
  }

  // ---------------------------------------------------------------------
  // Expiry
  // ---------------------------------------------------------------------

  /**
   * `expiry && new Date(expiry) < new Date()`: the expiry date's UTC
   * midnight lies before the present instant; an empty or unreadable date
   * never expires.
   */
  predicate Expired(expiry: string, now: Instant)
    requires ValidInstant(now)
  {
    expiry != "" && Parse(expiry).Some? && DayNumber(Parse(expiry).value) * MsPerDay < Millis(now)
  }

  /** A notice expires once its expiry day has begun to pass: from the first millisecond after its midnight. */
  lemma ExpiredIff(e: Date, now: Instant)
    requires Valid(e) && ValidInstant(now)
    ensures Expired(Format(e), now) <==> Before(e, now.date) || (e == now.date && now.ms > 0)
  {
    ParseFormat(e);
    if Before(e, now.date) {
      DayNumberOrder(e, now.date);
    } else if e != now.date {
      assert Before(now.date, e);
      DayNumberOrder(now.date, e);
    }
  }

  // ---------------------------------------------------------------------
  // The list view
  // ---------------------------------------------------------------------

  /** The tab filter: every notice, the pinned ones, or the ones written by "You". */
  predicate OnTab(n: Notice, tab: string) {
    tab == "all" || (tab == "pinned" && n.pinned) || (tab == "myNotices" && n.author == "You")
  }

  /**
   * Expired notices only when asked for; the search term in title, content
   * or author ignoring case; category and priority 'All' or equal; the
   * audience 'All' or among the notice's audiences; and the tab.
   */
  predicate Matches(n: Notice, f: Filters, tab: string, now: Instant)
    requires ValidInstant(now)
  {
    var q := ToLower(f.search);
    (!Expired(n.expiry, now) || f.showExpired)
    && (Includes(ToLower(n.title), q) || Includes(ToLower(n.content), q) || Includes(ToLower(n.author), q))
    && (f.category == "All" || n.category == f.category)
    && (f.priority == "All" || n.priority == f.priority)
    && (f.audience == "All" || f.audience in n.audience)
    && OnTab(n, tab)
  }

  function Matcher(f: Filters, tab: string, now: Instant): Notice -> bool
    requires ValidInstant(now)
  {
    (n: Notice) => Matches(n, f, tab, now)
  }

  /** The matching notices, in list order. */
  function Visible(ns: seq<Notice>, f: Filters, tab: string, now: Instant): (r: seq<Notice>)
    requires ValidInstant(now)
    ensures forall i :: 0 <= i < |r| ==> r[i] in ns && Matches(r[i], f, tab, now)
    ensures forall i :: 0 <= i < |ns| && Matches(ns[i], f, tab, now) ==> ns[i] in r
    ensures multiset(r) <= multiset(ns)
  {
    Filter(ns, Matcher(f, tab, now))
  }

  /** The listed notices keep their list order, each as often as in the list. */
  lemma VisibleInOrder(ns: seq<Notice>, f: Filters, tab: string, now: Instant)
    requires ValidInstant(now)
    ensures Subsequence(Visible(ns, f, tab, now), ns)
    ensures forall i :: 0 <= i < |ns| ==>
              multiset(Visible(ns, f, tab, now))[ns[i]] == if Matches(ns[i], f, tab, now) then multiset(ns)[ns[i]] else 0
  {
    FilterCounts(ns, Matcher(f, tab, now));
    FilterSubsequence(ns, Matcher(f, tab, now));
  }

  /** With the initial filters on the "all" tab exactly the unexpired notices are listed, in list order. */
  lemma NoFiltersShowUnexpired(ns: seq<Notice>, now: Instant)
    requires ValidInstant(now)
    ensures forall i :: 0 <= i < |ns| ==> (ns[i] in Visible(ns, NoFilters, "all", now) <==> !Expired(ns[i].expiry, now))
  {
    forall i | 0 <= i < |ns| ensures Matches(ns[i], NoFilters, "all", now) <==> !Expired(ns[i].expiry, now) {
      IncludesEmpty(ToLower(ns[i].title));
    }
  }

  /** The comparator as a sort key: newest date, highest priority or most likes first; no reordering otherwise. */
  function SortKey(sortBy: string): Notice -> int {
    if sortBy == "date" then (n: Notice) => -DateValue(n.date)
    else if sortBy == "priority" then (n: Notice) => PriorityRank(n.priority)
    else if sortBy == "likes" then (n: Notice) => -n.likes
    else (n: Notice) => 0
  }

  /** `filteredNotices`: the matching notices in the chosen order, ties in list order. */
  function Listed(ns: seq<Notice>, f: Filters, tab: string, now: Instant): (r: seq<Notice>)
    requires ValidInstant(now)
    ensures multiset(r) == multiset(Visible(ns, f, tab, now))
    ensures f.sortBy == "date" ==> forall i, j :: 0 <= i < j < |r| ==> DateValue(r[i].date) >= DateValue(r[j].date)
    ensures f.sortBy == "priority" ==> forall i, j :: 0 <= i < j < |r| ==> PriorityRank(r[i].priority) <= PriorityRank(r[j].priority)
    ensures f.sortBy == "likes" ==> forall i, j :: 0 <= i < j < |r| ==> r[i].likes >= r[j].likes
    ensures f.sortBy !in {"date", "priority", "likes"} ==> r == Visible(ns, f, tab, now)
  {
    var key := SortKey(f.sortBy);
    var r := SortByKey(Visible(ns, f, tab, now), key);
    assert forall i, j :: 0 <= i < j < |r| ==> key(r[i]) <= key(r[j]);
    assert f.sortBy !in {"date", "priority", "likes"} ==> r == Visible(ns, f, tab, now) by {
      if f.sortBy !in {"date", "priority", "likes"} {
        ConstantKeyIdentity(Visible(ns, f, tab, now), key);
      }
    }
    r
  }

  /** Notices the chosen order ranks equal keep the order they have in the list. */
  lemma ListedKeepsTies(ns: seq<Notice>, f: Filters, tab: string, now: Instant, k: int)
    requires ValidInstant(now)
    ensures Filter(Listed(ns, f, tab, now), KeyIs(SortKey(f.sortBy), k))
            == Filter(Visible(ns, f, tab, now), KeyIs(SortKey(f.sortBy), k))
  {
    SortStable(Visible(ns, f, tab, now), SortKey(f.sortBy), k);
  }

  // ---------------------------------------------------------------------
  // The page
  // ---------------------------------------------------------------------

  /** The page's state and its saved copy. */
  class NoticePage {
    var notices: seq<Notice>
    /** What the browser's storage holds under `notices`. */
    var saved: Option<seq<Notice>>
    var form: Draft
    var showForm: bool
    var filters: Filters
    var newComment: string
    var activeTab: string

    /** The effect that writes the list to storage after every change has run. */
    predicate Saved()
      reads this
    {
      saved == Some(notices)
    }

    /** Mounting the page: the saved list or the seed list, a blank form, the initial filters, the "all" tab. */
    constructor (stored: Option<seq<Notice>>)
      ensures notices == Initial(stored) && Saved()
      ensures form == BlankDraft && !showForm && filters == NoFilters && newComment == "" && activeTab == "all"
    {
      notices := Initial(stored);
      saved := Some(Initial(stored));
      form := BlankDraft;
      showForm := false;
      filters := NoFilters;
      newComment := "";
      activeTab := "all";
    }

    /** Ticking or unticking an audience checkbox of the form. */
    method ToggleAudience(a: string, checked: bool)
      modifies this
      ensures form == old(form).(audience := ToggledAudience(old(form).audience, a, checked))
      ensures notices == old(notices) && saved == old(saved) && showForm == old(showForm)
      ensures filters == old(filters) && newComment == old(newComment) && activeTab == old(activeTab)
    {
      form := form.(audience := ToggledAudience(form.audience, a, checked));
    }

    /**
     * Submitting the form: refused while a required field is empty;
     * otherwise the posted notice goes in front, the form is reset and
     * closed, and the list is saved.
     */
    method SubmitNotice(now: Instant) returns (accepted: bool)
      requires ValidInstant(now) && Saved()
      modifies this
      ensures accepted == Complete(old(form))
      ensures accepted ==> notices == [Posted(old(notices), old(form), Today(now))] + old(notices)
      ensures accepted ==> form == BlankDraft && !showForm
      ensures !accepted ==> notices == old(notices) && form == old(form) && showForm == old(showForm)
      ensures filters == old(filters) && newComment == old(newComment) && activeTab == old(activeTab) && Saved()
    {
      accepted := Complete(form);
      if accepted {
        notices := [Posted(notices, form, Today(now))] + notices;
        saved := Some(notices);
        form := BlankDraft;
        showForm := false;
      }
    }

    method Like(id: int)
      requires Saved()
      modifies this
      ensures notices == Liked(old(notices), id) && Saved()
      ensures form == old(form) && showForm == old(showForm) && filters == old(filters)
      ensures newComment == old(newComment) && activeTab == old(activeTab)
    {
      notices := Liked(notices, id);
      saved := Some(notices);
    }

    method TogglePin(id: int)
      requires Saved()
      modifies this
      ensures notices == PinToggled(old(notices), id) && Saved()
      ensures form == old(form) && showForm == old(showForm) && filters == old(filters)
      ensures newComment == old(newComment) && activeTab == old(activeTab)
    {
      notices := PinToggled(notices, id);
      saved := Some(notices);
    }

    /** Posting the comment box at instant `now`, with the clock reading `stamp`: ignored when blank. */
    method AddComment(id: int, now: Instant, stamp: int)
      requires ValidInstant(now) && Saved()
      modifies this
      ensures IsBlank(old(newComment)) ==> notices == old(notices) && newComment == old(newComment)
      ensures !IsBlank(old(newComment)) ==>
                notices == Commented(old(notices), id, old(newComment), now, stamp) && newComment == ""
      ensures form == old(form) && showForm == old(showForm) && filters == old(filters)
      ensures activeTab == old(activeTab) && Saved()
    {
      if !IsBlank(newComment) {
        notices := Commented(notices, id, newComment, now, stamp);
        saved := Some(notices);
        newComment := "";
      }
    }
  }
}
