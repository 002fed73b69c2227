/**
 * The visitor log: visitors are checked in with a photo (captured or a
 * generated avatar), checked out later, filtered by name, status, category
 * and date, and shown with the time they spent on campus.  The log lives in
 * the browser's storage under the key `visitors`.
 */
module Visitors {
  import opened Js
  import opened Store
  import opened Calendar

  /** A visitor record; `checkOut` is `None` while the visitor is on campus. */
  datatype Visitor = Visitor(
    id: int,
    name: string,
    company: string,
    email: string,
    phone: string,
    photo: string,
    purpose: string,
    category: string,
    host: string,
    checkIn: string,
    checkOut: Option<string>,
    status: string,
    verification: string,
    notes: string)

  /** The fields of the check-in form; `photo` is "" until the camera captures one. */
  datatype Draft = Draft(
    name: string, company: string, email: string, phone: string, purpose: string, category: string,
    host: string, verification: string, notes: string, photo: string)

  datatype Filters = Filters(search: string, status: string, category: string, dateRange: string)

  const BlankDraft := Draft("", "", "", "", "Meeting", "Business", "", "manual", "", "")
  const NoFilters := Filters("", "all", "all", "today")
  const Categories := ["Business", "Delivery", "Guest", "Student", "Vendor"]

  /** The visitors shown before anything has been saved. */
  const Seed: seq<Visitor> :=
    [Visitor(1, "Sarah Johnson", "Tech Solutions Inc.", "sarah.j@techsolutions.com", "+1 (555) 123-4567",
       "https://randomuser.me/api/portraits/women/44.jpg", "Business Meeting", "Business",
       "Mark Williams (Sales Dept)", "2025-05-10T09:30:00", Some("2025-05-10T11:45:00"), "checked-out",
       "facial-recognition", "Met with sales team about new software"),
     Visitor(2, "David Chen", "Global Logistics", "david.chen@globallogistics.com", "+1 (555) 987-6543",
       "https://randomuser.me/api/portraits/men/32.jpg", "Delivery", "Delivery", "Reception",
       "2025-05-10T14:15:00", None, "checked-in", "qr-code", "Dropped off packages for accounting"),
     Visitor(3, "Emma Rodriguez", "University of Tech", "emma.rodriguez@utech.edu", "+1 (555) 456-7890",
       "https://randomuser.me/api/portraits/women/68.jpg", "Campus Tour", "Guest", "Admissions Office",
       "2025-05-09T10:00:00", Some("2025-05-09T12:30:00"), "checked-out", "manual",
       "Prospective student - very interested")]

  /** The saved log when there is one, the seed log otherwise. */
  function Initial(stored: Option<seq<Visitor>>): seq<Visitor> {
    if stored.Some? then stored.value else Seed
  }

  function VisitorId(v: Visitor): int {
    v.id
  }

  function IsCheckedIn(v: Visitor): bool {
    v.status == "checked-in"
  }

  // ---------------------------------------------------------------------
  // Check-in and check-out
  // ---------------------------------------------------------------------

  /** The form's `required` name and host are filled in. */
  predicate Complete(d: Draft) {
    d.name != "" && d.host != ""
  }

  /**
   * The query string of the generated avatar.  Whatever the name holds, it
   * carries exactly the two parameters `name` and `background`.
   */
  function AvatarQuery(name: string): (q: string)
    ensures Split(q, '&') == ["name=" + EncodeUriComponent(name), "background=random"]
  {
    var enc := EncodeUriComponent(name);
    assert '&' !in "name=" + enc by {
      forall i | 0 <= i < |enc| ensures enc[i] != '&' { assert UriSafe(enc[i]); }
    }
    SplitTwo("name=" + enc, "background=random", '&');
    "name=" + enc + ['&'] + "background=random"
  }

  /** The generated avatar used when no photo was captured. */
  function AvatarUrl(name: string): string {
    "https://ui-avatars.com/api/?" + AvatarQuery(name)
  }

  /** `newVisitor.photo || avatar`: the captured photo, or the avatar when none was captured. */
  function PhotoOf(d: Draft): (p: string)
    ensures d.photo != "" ==> p == d.photo
    ensures d.photo == "" ==> p == AvatarUrl(d.name)
  {
    if d.photo != "" then d.photo else AvatarUrl(d.name)
  }

  /** The record a check-in creates: on campus since `now`, with a photo. */
  function CheckedIn(vs: seq<Visitor>, d: Draft, now: Instant): (v: Visitor)
    requires ValidInstant(now)
    ensures forall i :: 0 <= i < |vs| ==> vs[i].id < v.id
    ensures vs == [] ==> v.id == 1
    ensures vs != [] ==> exists i :: 0 <= i < |vs| && vs[i].id == v.id - 1
    ensures v.status == "checked-in" && v.checkOut == None && v.checkIn == IsoString(now)
    ensures v.photo != ""
    ensures v.name == d.name && v.company == d.company && v.email == d.email && v.phone == d.phone
    ensures v.purpose == d.purpose && v.category == d.category && v.host == d.host
    ensures v.verification == d.verification && v.notes == d.notes
  {
    Visitor(FreshId(vs, VisitorId), d.name, d.company, d.email, d.phone, PhotoOf(d), d.purpose, d.category,
      d.host, IsoString(now), None, "checked-in", d.verification, d.notes)
  }

  function HasId(id: int): Visitor -> bool {
    (v: Visitor) => v.id == id
  }

  function CheckOutAt(stamp: string): Visitor -> Visitor {
    (v: Visitor) => v.(checkOut := Some(stamp), status := "checked-out")
  }

  /** `handleCheckOut(id)`: the visitor with that id is checked out at `now`; everyone else is untouched. */
  function CheckedOut(vs: seq<Visitor>, id: int, now: Instant): (r: seq<Visitor>)
    requires ValidInstant(now)
    ensures |r| == |vs|
    ensures forall i :: 0 <= i < |vs| && vs[i].id == id ==>
              r[i] == vs[i].(checkOut := Some(IsoString(now)), status := "checked-out")
    ensures forall i :: 0 <= i < |vs| && vs[i].id != id ==> r[i] == vs[i]
  {
    Update(vs, HasId(id), CheckOutAt(IsoString(now)))
  }

  /** Checking a visitor in and out leaves one fewer visitor on campus than after the check-in. */
  lemma CheckInOut(vs: seq<Visitor>, d: Draft, t1: Instant, t2: Instant)
    requires ValidInstant(t1) && ValidInstant(t2)
    requires UniqueBy(vs, VisitorId)
    ensures var after := [CheckedIn(vs, d, t1)] + vs;
            Count(after, IsCheckedIn) == Count(vs, IsCheckedIn) + 1
            && Count(CheckedOut(after, CheckedIn(vs, d, t1).id, t2), IsCheckedIn) == Count(vs, IsCheckedIn)
  {
    var v := CheckedIn(vs, d, t1);
    var after := [v] + vs;
    assert after[1..] == vs;
    var out := CheckedOut(after, v.id, t2);
    assert out[1..] == vs by {
      forall i | 0 <= i < |vs| ensures out[i + 1] == vs[i] {
        assert after[i + 1] == vs[i];
        assert vs[i].id < v.id;
      }
    }
    assert !IsCheckedIn(out[0]);
  }

  // ---------------------------------------------------------------------
  // Time on campus
  // ---------------------------------------------------------------------

  /** Whole hours and the whole minutes left over in a span of milliseconds. */
  function HoursMinutes(diff: nat): (hm: (nat, nat))
    ensures hm.1 < 60
    ensures hm.0 * 3600000 + hm.1 * 60000 <= diff < hm.0 * 3600000 + hm.1 * 60000 + 60000
  {
    (diff / 3600000, diff % 3600000 / 60000)
  }

  /** `${hours}h ${minutes}m`, or `${minutes}m` under an hour. */
  function DurationText(diff: nat): string {
    var hm := HoursMinutes(diff);
    if hm.0 > 0 then NatToString(hm.0) + "h " + NatToString(hm.1) + "m" else NatToString(hm.1) + "m"
  }

  /**
   * `getDuration(checkIn, checkOut)`: 'N/A' without a check-in; otherwise
   * the absolute span to the check-out, or to `now` while still on campus.
   * An unreadable time makes the span NaN, which prints as "NaNm".
   */
  function Duration(checkIn: string, checkOut: Option<string>, now: Instant): string
    requires ValidInstant(now)
  {
    if checkIn == "" then "N/A"
    else
      var end := if checkOut.Some? && checkOut.value != "" then ParseStamp(checkOut.value) else Some(Millis(now));
      Span(ParseStamp(checkIn), end)
  }

  /** `Math.abs(end - start)` written out, or "NaNm" when either time is unreadable. */
  function Span(start: Option<int>, end: Option<int>): string {
    if start.Some? && end.Some? then
      DurationText(Gap(start.value, end.value))
    else "NaNm"
  }

  /** A visitor checked in at `t1` and out at `t2` by this page is shown with the span between the two. */
  lemma DurationOfVisit(t1: Instant, t2: Instant, now: Instant)
    requires ValidInstant(t1) && ValidInstant(t2) && ValidInstant(now)
    ensures Duration(IsoString(t1), Some(IsoString(t2)), now) == DurationText(Gap(Millis(t1), Millis(t2)))
  {
    ParseStampOfIso(t1);
    ParseStampOfIso(t2);
    DurationOfStamps(IsoString(t1), IsoString(t2), now);
  }

  /** `Math.abs(y - x)` */
  function Gap(x: int, y: int): (d: nat)
    ensures d == x - y || d == y - x
  {
    if y >= x then y - x else x - y
  }

  lemma DurationOfStamps(a: string, b: string, now: Instant)
    requires ValidInstant(now) && a != "" && b != ""
    ensures Duration(a, Some(b), now) == Span(ParseStamp(a), ParseStamp(b))
  {
  }

  /** A visitor still on campus is shown with the span from check-in to now. */
  lemma DurationOnCampus(t1: Instant, now: Instant)
    requires ValidInstant(t1) && ValidInstant(now) && Millis(t1) <= Millis(now)
    ensures Duration(IsoString(t1), None, now) == DurationText(Millis(now) - Millis(t1))
  {
    ParseStampOfIso(t1);
    assert |IsoString(t1)| == 24;
  }

  // ---------------------------------------------------------------------
  // The list view
  // ---------------------------------------------------------------------

  /**
   * `new Date(now.setDate(now.getDate() - 7)).toISOString().split('T')[0]`:
   * the date a week before today; in the first week of year 0 that is a
   * day of year -1, which the ISO form writes with a sign.
   */
  function WeekAgo(now: Instant): (s: string)
    requires ValidInstant(now)
    ensures DayNumber(now.date) >= 7 ==> s == Format(DaysEarlier(now.date, 7))
  {
    if DayNumber(now.date) >= 7 then Format(DaysEarlier(now.date, 7))
    else "-000001-12-" + Pad2(25 + DayNumber(now.date))
  }

  /** The date range filter: everything, today's check-ins, or check-ins since the day a week ago. */
  predicate InRange(v: Visitor, range: string, now: Instant)
    requires ValidInstant(now)
  {
    var visitorDate := Split(v.checkIn, 'T')[0];
    range == "all"
    || (range == "today" && visitorDate == Today(now))
    || (range == "week" && StrLessEq(WeekAgo(now), visitorDate))
  }

  /** For a check-in written by this page, the "week" range keeps it exactly when its day is at most seven days back. */
  lemma WeekRange(t: Instant, now: Instant)
    requires ValidInstant(t) && ValidInstant(now) && DayNumber(now.date) >= 7
    ensures StrLessEq(WeekAgo(now), Split(IsoString(t), 'T')[0]) <==> DayNumber(t.date) >= DayNumber(now.date) - 7
  {
    IsoDatePart(t);
    var w := DaysEarlier(now.date, 7);
    FormatOrder(w, t.date);
    FormatInjective(w, t.date);
    if Before(w, t.date) {
      DayNumberOrder(w, t.date);
    } else if w != t.date {
      assert Before(t.date, w);
      DayNumberOrder(t.date, w);
    }
  }

  /**
   * The search term (empty, or in name, company or host ignoring case); the
   * status 'all' or equal; the category 'all' or equal; and the date range.
   */
  predicate Matches(v: Visitor, f: Filters, now: Instant)
    requires ValidInstant(now)
  {
    var q := ToLower(f.search);
    (f.search == "" || Includes(ToLower(v.name), q) || (v.company != "" && Includes(ToLower(v.company), q))
       || Includes(ToLower(v.host), q))
    && (f.status == "all" || (f.status == "checked-in" && v.status == "checked-in")
        || (f.status == "checked-out" && v.status == "checked-out"))
    && (f.category == "all" || v.category == f.category)
    && InRange(v, f.dateRange, now)
  }

  function Matcher(f: Filters, now: Instant): Visitor -> bool
    requires ValidInstant(now)
  {
    (v: Visitor) => Matches(v, f, now)
  }

  /** `filteredVisitors`: the matching visitors, in log order. */
  function Visible(vs: seq<Visitor>, f: Filters, now: Instant): (r: seq<Visitor>)
    requires ValidInstant(now)
    ensures forall i :: 0 <= i < |r| ==> r[i] in vs && Matches(r[i], f, now)
    ensures forall i :: 0 <= i < |vs| && Matches(vs[i], f, now) ==> vs[i] in r
    ensures multiset(r) <= multiset(vs)
  {
    Filter(vs, Matcher(f, now))
  }

  /** The listed visitors keep their log order, each as often as in the log. */
  lemma VisibleInOrder(vs: seq<Visitor>, f: Filters, now: Instant)
    requires ValidInstant(now)
    ensures Subsequence(Visible(vs, f, now), vs)
    ensures forall i :: 0 <= i < |vs| ==>
              multiset(Visible(vs, f, now))[vs[i]] == if Matches(vs[i], f, now) then multiset(vs)[vs[i]] else 0
  {
    FilterCounts(vs, Matcher(f, now));
    FilterSubsequence(vs, Matcher(f, now));
  }

  /** A visitor checked in at `now` is listed under the initial filters. */
  lemma NewVisitorListed(vs: seq<Visitor>, d: Draft, now: Instant)
    requires ValidInstant(now)
    ensures CheckedIn(vs, d, now) in Visible([CheckedIn(vs, d, now)] + vs, NoFilters, now)
  {
    IsoDatePart(now);
    var v := CheckedIn(vs, d, now);
    assert ([v] + vs)[0] == v;
  }

  /** The "current visitors" view: those whose status is 'checked-in'. */
  function OnCampus(vs: seq<Visitor>): (r: seq<Visitor>)
    ensures forall i :: 0 <= i < |r| ==> r[i] in vs && r[i].status == "checked-in"
    ensures forall i :: 0 <= i < |vs| && vs[i].status == "checked-in" ==> vs[i] in r
  {
    Filter(vs, IsCheckedIn)
  }

  // ---------------------------------------------------------------------
  // The page
  // ---------------------------------------------------------------------

  /** The page's state and its saved copy. */
  class VisitorPage {
    var visitors: seq<Visitor>
    /** What the browser's storage holds under `visitors`. */
    var saved: Option<seq<Visitor>>
    var form: Draft
    var showForm: bool
    var filters: Filters

    /** The effect that writes the log to storage after every change has run. */
    predicate Saved()
      reads this
    {
      saved == Some(visitors)
    }

    /** Mounting the page: the saved log or the seed log, a blank form, today's visitors. */
    constructor (stored: Option<seq<Visitor>>)
      ensures visitors == Initial(stored) && Saved()
      ensures form == BlankDraft && !showForm && filters == NoFilters
    {
      visitors := Initial(stored);
      saved := Some(Initial(stored));
      form := BlankDraft;
      showForm := false;
      filters := NoFilters;
    }

    /** The camera captured a photo, given as a data URL. */
    method CapturePhoto(photoUrl: string)
      modifies this
      ensures form == old(form).(photo := photoUrl)
      ensures visitors == old(visitors) && saved == old(saved) && showForm == old(showForm) && filters == old(filters)
    {
      form := form.(photo := photoUrl);
    }

    /**
     * Submitting the form: refused while a required field is empty;
     * otherwise the new visitor goes in front, the form is reset and
     * closed, and the log is saved.
     */
    method SubmitVisitor(now: Instant) returns (accepted: bool)
      requires ValidInstant(now) && Saved()
      modifies this
      ensures accepted == Complete(old(form))
      ensures accepted ==> visitors == [CheckedIn(old(visitors), old(form), now)] + old(visitors)
      ensures accepted ==> form == BlankDraft && !showForm
      ensures !accepted ==> visitors == old(visitors) && form == old(form) && showForm == old(showForm)
      ensures filters == old(filters) && Saved()
    {
      accepted := Complete(form);
      if accepted {
        visitors := [CheckedIn(visitors, form, now)] + visitors;
        saved := Some(visitors);
        form := BlankDraft;
        showForm := false;
      }
    }

    method CheckOut(id: int, now: Instant)
      requires ValidInstant(now) && Saved()
      modifies this
      ensures visitors == CheckedOut(old(visitors), id, now) && Saved()
      ensures form == old(form) && showForm == old(showForm) && filters == old(filters)
    {
      visitors := CheckedOut(visitors, id, now);
      saved := Some(visitors);
    }
  }
}
