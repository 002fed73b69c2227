/**
 * The analysis page: it reads the saved complaints and maintenance
 * requests, draws a histogram by category, a six-month trend and a list
 * of recent issues, and asks a language-model service for suggestions,
 * one general list and one list per category.  The service's replies
 * are parameters here; the charts themselves are not modelled.
 */
module AiAnalysis {
  import opened Js
  import opened Store
  import opened Calendar
  import Complaints
  import Maintenance

  /** A complaint or a maintenance request as the page reads it; a complaint has no `type`, a request no `category` (both read as ""). */
  datatype Issue = Issue(title: string, category: string, kind: string, status: string, priority: string, date: string)

  function FromComplaint(c: Complaints.Complaint): Issue {
    Issue(c.title, c.category, "", c.status, c.priority, c.date)
  }

  function FromRequest(r: Maintenance.Request): Issue {
    Issue(r.title, "", r.kind, r.status, r.priority, r.date)
  }

  /** `[...complaints, ...maintenanceRequests]` */
  function AllIssues(cs: seq<Complaints.Complaint>, rs: seq<Maintenance.Request>): (r: seq<Issue>)
    ensures |r| == |cs| + |rs|
    ensures forall i :: 0 <= i < |cs| ==> r[i] == FromComplaint(cs[i])
    ensures forall i :: 0 <= i < |rs| ==> r[|cs| + i] == FromRequest(rs[i])
  {
    Map(cs, FromComplaint) + Map(rs, FromRequest)
  }

  // ---------------------------------------------------------------------
  // Suggestions from a reply
  // ---------------------------------------------------------------------

  datatype Suggestion = Suggestion(id: nat, text: string)

  /** Removes a leading `digits.` and the white space after it, as `line.replace(/^\d+\.\s*\/, '')` does. */
  function StripNumber(line: string): string {
    var d := LeadingDigits(line);
    if d != [] && |d| < |line| && line[|d|] == '.' then TrimStart(line[|d| + 1..]) else line
  }

  /** The text of one suggestion line. */
  function Clean(line: string): string {
    Trim(StripNumber(line))
  }

  /** A numbered line loses its number and the surrounding white space. */
  lemma CleanNumbered(d: string, t: string)
    requires d != [] && forall i :: 0 <= i < |d| ==> IsDigit(d[i])
    ensures Clean(d + "." + t) == Trim(TrimStart(t))
  {
    var line := d + "." + t;
    assert line[..|d|] == d && line[|d|] == '.';
    LeadingDigitsOf(d, "." + t);
    assert line == d + ("." + t);
    assert line[|d| + 1..] == t;
  }

  /** The leading digits of `d + rest`, when `rest` does not start with a digit. */
  lemma {:induction false} LeadingDigitsOf(d: string, rest: string)
    requires forall i :: 0 <= i < |d| ==> IsDigit(d[i])
    requires rest == [] || !IsDigit(rest[0])
    ensures LeadingDigits(d + rest) == d
  {
    if d != [] {
      assert (d + rest)[1..] == d[1..] + rest;
      LeadingDigitsOf(d[1..], rest);
    } else {
      assert d + rest == rest;
    }
  }

  /** A line holding only a number gives an empty suggestion. */
  lemma OnlyNumberIsEmpty()
    ensures Clean("3.") == ""
  {
    var line := "3.";
    assert LeadingDigits(line) == "3" by {
      assert line == "3" + ".";
      LeadingDigitsOf("3", ".");
    }
    assert line[2..] == [];
  }

  function NotBlank(line: string): bool {
    !IsBlank(line)
  }

  /**
   * `parseAiResponse`: the reply's non-blank lines, in order, each
   * cleaned, numbered from 0.
   */
  function ParseAiResponse(reply: string): (r: seq<Suggestion>)
    ensures var lines := Filter(Split(reply, '\n'), NotBlank);
            |r| == |lines| && forall i :: 0 <= i < |r| ==> r[i] == Suggestion(i, Clean(lines[i]))
  {
    var lines := Filter(Split(reply, '\n'), NotBlank);
    seq(|lines|, (i: int) requires 0 <= i < |lines| => Suggestion(i, Clean(lines[i])))
  }

  // ---------------------------------------------------------------------
  // Charts
  // ---------------------------------------------------------------------

  /** The category chart: complaint categories and request types counted together. */
  function CategoryHistogram(cs: seq<Complaints.Complaint>, rs: seq<Maintenance.Request>): Counts {
    Tally(Map(cs, Complaints.Category) + Map(rs, Maintenance.Kind))
  }

  /** The bars add up to all the complaints and requests, and each bar is the sum of both counts. */
  lemma HistogramTotals(cs: seq<Complaints.Complaint>, rs: seq<Maintenance.Request>, k: string)
    ensures Total(CategoryHistogram(cs, rs)) == |cs| + |rs|
    ensures Lookup(CategoryHistogram(cs, rs), k) == multiset(Map(cs, Complaints.Category))[k] + multiset(Map(rs, Maintenance.Kind))[k]
  {
    var keys := Map(cs, Complaints.Category) + Map(rs, Maintenance.Kind);
    TallyTotal(keys);
    TallyCount(keys, k);
  }

  /** Months since year 0 of a date: a count that goes up by one each month. */
  function MonthNumber(d: Date): int {
    d.year * 12 + d.month - 1
  }

  /**
   * The trend bucket of an issue: `5 - monthDiff` when its date is
   * between 0 and 5 months before today's month; none for older,
   * later or unreadable dates (where `monthDiff` is `NaN`).
   */
  function Bucket(now: Date, x: Issue): (b: Option<nat>)
    ensures b.Some? ==> b.value < 6
  {
    match Parse(x.date)
    case None => None
    case Some(d) =>
      var diff := MonthNumber(now) - MonthNumber(d);
      if 0 <= diff < 6 then Some(5 - diff) else None
  }

  function InBucket(now: Date, k: nat): Issue -> bool {
    (x: Issue) => Bucket(now, x) == Some(k)
  }

  /** The trend chart's data: bucket `k` counts the issues whose bucket is `k`. */
  function Trend(issues: seq<Issue>, now: Date): (t: seq<nat>)
    ensures |t| == 6
  {
    seq(6, (k: int) requires 0 <= k < 6 => Count(issues, InBucket(now, k)))
  }

  function Sum6(t: seq<nat>): nat
    requires |t| == 6
  {
    t[0] + t[1] + t[2] + t[3] + t[4] + t[5]
  }

  /** Older and unreadable dates are dropped, so the buckets hold at most every issue. */
  lemma {:induction false} TrendBounded(issues: seq<Issue>, now: Date)
    ensures Sum6(Trend(issues, now)) <= |issues|
  {
    if issues != [] {
      TrendBounded(issues[1..], now);
      TrendCons(issues, now);
    }
  }

  lemma TrendEmpty(now: Date)
    ensures Trend([], now) == [0, 0, 0, 0, 0, 0]
  {
  }

  /** The first issue adds one to its own bucket, if it has one. */
  lemma TrendCons(issues: seq<Issue>, now: Date)
    requires issues != []
    ensures var t, u, b := Trend(issues, now), Trend(issues[1..], now), Bucket(now, issues[0]);
            forall k :: 0 <= k < 6 ==> t[k] == u[k] + (if b == Some(k) then 1 else 0)
  {
  }

  /** One more issue at the end adds one to its bucket, if it has one. */
  lemma TrendSnoc(s: seq<Issue>, x: Issue, now: Date)
    ensures forall k :: 0 <= k < 6 ==> Trend(s + [x], now)[k] == Trend(s, now)[k] + (if Bucket(now, x) == Some(k) then 1 else 0)
  {
    forall k | 0 <= k < 6 ensures Trend(s + [x], now)[k] == Trend(s, now)[k] + (if Bucket(now, x) == Some(k) then 1 else 0) {
      CountSnoc(s, x, InBucket(now, k));
    }
  }

  /** A dated issue lands in bucket `k` exactly when it is from the month `5 - k` months before today's. */
  lemma BucketIsMonth(now: Date, x: Issue, k: nat)
    requires Parse(x.date).Some? && k < 6
    ensures Bucket(now, x) == Some(k) <==> MonthNumber(Parse(x.date).value) == MonthNumber(now) - (5 - k)
  {
  }

  /** `monthNames[m]`: the short English name of the month with index `m` (January is 0). */
  function MonthName(m: int): (s: string)
    requires 0 <= m < 12
    ensures |s| == 3
  {
    if m == 0 then "Jan" else if m == 1 then "Feb" else if m == 2 then "Mar"
    else if m == 3 then "Apr" else if m == 4 then "May" else if m == 5 then "Jun"
    else if m == 6 then "Jul" else if m == 7 then "Aug" else if m == 8 then "Sep"
    else if m == 9 then "Oct" else if m == 10 then "Nov" else "Dec"
  }

  /** The index a month name stands for; the names are told apart by their letters. */
  function MonthIndex(s: string): (m: int)
    ensures 0 <= m < 12
  {
    if s == "Jan" then 0 else if s == "Feb" then 1 else if s == "Mar" then 2
    else if s == "Apr" then 3 else if s == "May" then 4 else if s == "Jun" then 5
    else if s == "Jul" then 6 else if s == "Aug" then 7 else if s == "Sep" then 8
    else if s == "Oct" then 9 else if s == "Nov" then 10 else 11
  }

  /** Different months have different names. */
  lemma MonthIndexOfName(m: int)
    requires 0 <= m < 12
    ensures MonthIndex(MonthName(m)) == m
  {
  }

  /** The label of month number `t`: its short name, a space, and the year without its first two characters. */
  function MonthLabelAt(t: int): string {
    MonthName(t % 12) + " " + Drop(IntToString(t / 12), 2)
  }

  lemma MonthLabelName(t: int)
    ensures |MonthLabelAt(t)| >= 3 && MonthLabelAt(t)[..3] == MonthName(t % 12)
  {
  }

  /** Two months less than a year apart have different labels. */
  lemma MonthLabelsDiffer(a: int, b: int)
    requires 0 < b - a < 12
    ensures MonthLabelAt(a) != MonthLabelAt(b)
  {
    assert a % 12 != b % 12 by {
      var q, p := a / 12, b / 12;
      assert a == 12 * q + a % 12 && b == 12 * p + b % 12;
    }
    MonthIndexOfName(a % 12);
    MonthIndexOfName(b % 12);
    MonthLabelName(a);
    MonthLabelName(b);
  }

  /**
   * The trend labels as the page builds them: for `i` from 5 down to 0,
   * today's date with its month set back by `i`.  Setting the month
   * keeps the day of the month, so a day the target month does not
   * have runs over into the month after it.
   */
  function TrendLabelsAsWritten(now: Date): (r: seq<string>)
    ensures |r| == 6
  {
    seq(6, (k: int) requires 0 <= k < 6 => MonthLabelAt(SetMonthBack(now, 5 - k)))
  }

  /** The month number `new Date().setMonth(getMonth() - i)` lands in. */
  function SetMonthBack(now: Date, i: int): int {
    var t := MonthNumber(now) - i;
    if now.day > DaysInMonth(t / 12, t % 12 + 1) then t + 1 else t
  }

  /**
   * The labels the buckets call for: bucket `k` is named after the month
   * `5 - k` months back, the month whose issues it counts
   * (`BucketIsMonth`); six months are less than a year, so the labels
   * differ (`MonthLabelsDiffer`).
   */
  function TrendLabels(now: Date): (r: seq<string>)
    ensures |r| == 6
    ensures forall k :: 0 <= k < 6 ==> r[k] == MonthLabelAt(MonthNumber(now) - (5 - k))
  {
    seq(6, (k: int) requires 0 <= k < 6 => MonthLabelAt(MonthNumber(now) - (5 - k)))
  }

  /**
   * On 31 May 2025 the page labels the February bucket with the
   * following month's name: February 2025 has no 31st, so "Mar 25"
   * appears twice, while that bucket counts the February issues.
   */
  lemma TrendLabelsRepeat()
    ensures var now := Date(2025, 5, 31);
            TrendLabelsAsWritten(now)[2] == "Mar 25" && TrendLabelsAsWritten(now)[3] == "Mar 25"
            && TrendLabels(now)[2] == "Feb 25"
            && Bucket(now, Issue("", "", "", "", "", "2025-02-10")) == Some(2)
  {
    var now := Date(2025, 5, 31);
    assert MonthNumber(now) == 24304;
    YearText2025();
    assert MonthLabelAt(24302) == "Mar 25" by { assert 24302 / 12 == 2025 && 24302 % 12 == 2; }
    assert MonthLabelAt(24301) == "Feb 25" by { assert 24301 / 12 == 2025 && 24301 % 12 == 1; }
    assert SetMonthBack(now, 3) == 24302 by {
      assert 24301 / 12 == 2025 && 24301 % 12 == 1;
      assert DaysInMonth(2025, 2) == 28;
    }
    assert SetMonthBack(now, 2) == 24302 by {
      assert 24302 / 12 == 2025 && 24302 % 12 == 2;
      assert DaysInMonth(2025, 3) == 31;
    }
    assert Parse("2025-02-10") == Some(Date(2025, 2, 10)) by { ParseFormat(Date(2025, 2, 10)); FormatFeb10(); }
  }

  lemma FormatFeb10()
    ensures Format(Date(2025, 2, 10)) == "2025-02-10"
  {
    assert Pad4(2025) == "2025" && Pad2(2) == "02" && Pad2(10) == "10";
  }

  lemma YearText2025()
    ensures Drop(IntToString(2025), 2) == "25"
  {
    assert NatToString(2) == "2";
    assert NatToString(20) == "20";
    assert NatToString(202) == "202";
    assert NatToString(2025) == "2025";
  }

  // ---------------------------------------------------------------------
  // Lists and figures
  // ---------------------------------------------------------------------

  function NonEmpty(s: string): bool {
    s != ""
  }

  /** Complaint categories, then request types, as the category list reads them. */
  function CategoryNames(cs: seq<Complaints.Complaint>, rs: seq<Maintenance.Request>): seq<string> {
    Map(cs, Complaints.Category) + Map(rs, Maintenance.Kind)
  }

  /** `Array.from(new Set(names))` without the empty names. */
  function NamedOnce(names: seq<string>): (kept: seq<string>)
    ensures forall i :: 0 <= i < |kept| ==> kept[i] != ""
    ensures forall x :: x in kept <==> x != "" && x in names
    ensures forall i, j :: 0 <= i < j < |kept| ==> kept[i] != kept[j]
  {
    var d := Distinct(names);
    FilterOrder(d, NonEmpty);
    Filter(d, NonEmpty)
  }

  /**
   * `getAllCategories`: 'All', then each complaint category and request
   * type once, without empty ones ('All' is never empty, so filtering the
   * whole list or the rest is the same). The order of the names after
   * 'All' is not stated here.
   */
  function AllCategories(cs: seq<Complaints.Complaint>, rs: seq<Maintenance.Request>): (r: seq<string>)
    ensures r != [] && r[0] == "All"
    ensures forall i :: 0 <= i < |r| ==> r[i] != ""
    ensures forall x :: x in r[1..] <==> x != "" && x in CategoryNames(cs, rs)
    ensures forall i, j :: 1 <= i < j < |r| ==> r[i] != r[j]
  {
    var kept := NamedOnce(CategoryNames(cs, rs));
    assert (["All"] + kept)[1..] == kept;
    ["All"] + kept
  }

  /** `Filter` keeps distinct values distinct. */
  lemma {:induction false} FilterOrder(s: seq<string>, keep: string -> bool)
    requires forall i, j :: 0 <= i < j < |s| ==> s[i] != s[j]
    ensures forall i, j :: 0 <= i < j < |Filter(s, keep)| ==> Filter(s, keep)[i] != Filter(s, keep)[j]
  {
    if s != [] {
      FilterOrder(s[1..], keep);
      var rest := Filter(s[1..], keep);
      assert s[0] !in s[1..];
      assert s[0] !in rest;
    }
  }

  /** The four figures at the top of the page; the last two are fixed texts. */
  datatype Stats = Stats(total: nat, open: nat, avgResolution: string, satisfaction: string)

  function ComplaintOpen(c: Complaints.Complaint): bool {
    c.status != "Resolved"
  }

  function RequestOpen(r: Maintenance.Request): bool {
    r.status != "Resolved"
  }

  /** `getStats`: all issues, the ones not 'Resolved', and the two fixed figures. */
  function GetStats(cs: seq<Complaints.Complaint>, rs: seq<Maintenance.Request>): (s: Stats)
    ensures s.total == |cs| + |rs|
    ensures s.open == |Filter(cs, ComplaintOpen)| + |Filter(rs, RequestOpen)|
    ensures s.open <= s.total
    ensures s.open == s.total <==> forall i :: 0 <= i < |AllIssues(cs, rs)| ==> AllIssues(cs, rs)[i].status != "Resolved"
  {
    OpenEqualsTotal(cs, rs);
    Stats(|cs| + |rs|, Count(cs, ComplaintOpen) + Count(rs, RequestOpen), "3.2 days", "78%")
  }

  lemma OpenEqualsTotal(cs: seq<Complaints.Complaint>, rs: seq<Maintenance.Request>)
    ensures Count(cs, ComplaintOpen) + Count(rs, RequestOpen) == |cs| + |rs|
            <==> forall i :: 0 <= i < |AllIssues(cs, rs)| ==> AllIssues(cs, rs)[i].status != "Resolved"
  {
    var all := AllIssues(cs, rs);
    CountAll(cs, ComplaintOpen);
    CountAll(rs, RequestOpen);
    if forall i :: 0 <= i < |all| ==> all[i].status != "Resolved" {
      forall i | 0 <= i < |cs| ensures ComplaintOpen(cs[i]) { assert all[i].status == cs[i].status; }
      forall i | 0 <= i < |rs| ensures RequestOpen(rs[i]) { assert all[|cs| + i].status == rs[i].status; }
    }
  }

  /** Every record is counted exactly when each one satisfies the predicate. */
  lemma {:induction false} CountAll<T>(s: seq<T>, p: T -> bool)
    ensures Count(s, p) == |s| <==> forall i :: 0 <= i < |s| ==> p(s[i])
  {
    if s != [] {
      CountAll(s[1..], p);
      if forall i :: 0 <= i < |s| ==> p(s[i]) {
        assert forall i :: 0 <= i < |s[1..]| ==> p(s[1..][i]) by {
          forall i | 0 <= i < |s[1..]| ensures p(s[1..][i]) { assert s[1..][i] == s[i + 1]; }
        }
      } else if p(s[0]) {
        var i :| 0 <= i < |s| && !p(s[i]);
        assert s[1..][i - 1] == s[i];
      }
    }
  }

  /** Newer dates first; unreadable dates sort as day 0. */
  function NewestFirst(x: Issue): int {
    -DateValue(x.date)
  }

  /** The 'Recent Issues' list: the five latest issues, newest first. */
  function RecentIssues(issues: seq<Issue>): (r: seq<Issue>)
    ensures |r| == if |issues| < 5 then |issues| else 5
    ensures multiset(r) <= multiset(issues)
    ensures SortedBy(r, NewestFirst)
    ensures forall x :: x in multiset(issues) - multiset(r) ==>
              forall i :: 0 <= i < |r| ==> DateValue(x.date) <= DateValue(r[i].date)
  {
    var sorted := SortByKey(issues, NewestFirst);
    TakeSorted(sorted, 5, NewestFirst);
    TakeLeavesLater(sorted, 5, NewestFirst);
    Take(sorted, 5)
  }

  /** The first `n` records, or all of them when there are fewer. */
  function Take<T>(s: seq<T>, n: nat): (r: seq<T>)
    ensures |r| == if |s| < n then |s| else n
    ensures forall i :: 0 <= i < |r| ==> r[i] == s[i]
  {
    if |s| < n then s else s[..n]
  }

  /** The head of a sorted list is sorted and drawn from it. */
  lemma TakeSorted<T>(s: seq<T>, n: nat, key: T -> int)
    requires SortedBy(s, key)
    ensures SortedBy(Take(s, n), key) && multiset(Take(s, n)) <= multiset(s)
  {
    if n <= |s| {
      assert s == s[..n] + s[n..];
    }
  }

  /** Of a sorted list, every record the head leaves out has a key no smaller than any record kept. */
  lemma TakeLeavesLater<T>(s: seq<T>, n: nat, key: T -> int)
    requires SortedBy(s, key)
    ensures forall x :: x in multiset(s) - multiset(Take(s, n)) ==>
              forall i :: 0 <= i < |Take(s, n)| ==> key(Take(s, n)[i]) <= key(x)
  {
    var t := Take(s, n);
    if n <= |s| {
      var rest := s[n..];
      assert s == t + rest;
      assert multiset(s) == multiset(t) + multiset(rest);
      forall x | x in multiset(s) - multiset(t) ensures forall i :: 0 <= i < |t| ==> key(t[i]) <= key(x) {
        assert x in multiset(rest);
        var j :| 0 <= j < |rest| && rest[j] == x;
        assert s[n + j] == x;
        forall i | 0 <= i < |t| ensures key(t[i]) <= key(x) {
          assert t[i] == s[i];
        }
      }
    } else {
      assert t == s;
    }
  }

  // ---------------------------------------------------------------------
  // Suggestion requests
  // ---------------------------------------------------------------------

  /** `item.category || item.type || 'General'` */
  function GroupOf(x: Issue): string {
    if x.category != "" then x.category else if x.kind != "" then x.kind else "General"
  }

  /** The categories suggestions are asked for, each once, in order of first appearance. */
  function GroupNames(issues: seq<Issue>): (names: seq<string>)
    ensures forall i :: 0 <= i < |issues| ==> GroupOf(issues[i]) in names
    ensures forall g :: g in names ==> exists i :: 0 <= i < |issues| && GroupOf(issues[i]) == g
    ensures forall i, j :: 0 <= i < j < |names| ==> names[i] != names[j]
  {
    var keys := Map(issues, GroupOf);
    assert forall i :: 0 <= i < |issues| ==> keys[i] == GroupOf(issues[i]);
    Distinct(keys)
  }

  function InGroup(g: string): Issue -> bool {
    (x: Issue) => GroupOf(x) == g
  }

  /** The issues of one category, in order; every issue belongs to exactly one. */
  function Group(issues: seq<Issue>, g: string): (r: seq<Issue>)
    ensures forall i :: 0 <= i < |r| ==> r[i] in issues && GroupOf(r[i]) == g
    ensures forall i :: 0 <= i < |issues| && GroupOf(issues[i]) == g ==> issues[i] in r
  {
    Filter(issues, InGroup(g))
  }

  /** `err.message || "Failed to get AI suggestions"` */
  function ErrorText(message: string): (e: string)
    ensures e != ""
    ensures message != "" ==> e == message
  {
    if message == "" then "Failed to get AI suggestions" else message
  }

  /** The first failed reply's message when asking for the categories in order; the loop stops there. */
  function ErrorOf(names: seq<string>, reply: string -> Result<string>): (e: Option<string>)
    ensures e.Some? <==> exists i :: 0 <= i < |names| && reply(names[i]).Failure?
  {
    if names == [] then None
    else
      var init := names[..|names| - 1];
      var e := ErrorOf(init, reply);
      assert forall i :: 0 <= i < |init| ==> init[i] == names[i];
      if e.Some? then e
      else
        var r := reply(names[|names| - 1]);
        if r.Failure? then Some(ErrorText(r.error)) else None
  }

  /** The per-category suggestions gathered before the first failure. */
  function Collected(names: seq<string>, reply: string -> Result<string>): map<string, seq<Suggestion>> {
    if names == [] then map[]
    else
      var m := Collected(names[..|names| - 1], reply);
      if ErrorOf(names[..|names| - 1], reply).Some? then m
      else
        var r := reply(names[|names| - 1]);
        if r.Success? then m[names[|names| - 1] := ParseAiResponse(r.value)] else m
  }

  /** Every category gathered was asked for and answered, and holds its parsed answer. */
  lemma {:induction false} CollectedSound(names: seq<string>, reply: string -> Result<string>)
    ensures forall g :: g in Collected(names, reply) ==>
              g in names && reply(g).Success? && Collected(names, reply)[g] == ParseAiResponse(reply(g).value)
  {
    if names != [] {
      var init, last := names[..|names| - 1], names[|names| - 1];
      CollectedSound(init, reply);
      var m, m2 := Collected(init, reply), Collected(names, reply);
      forall g | g in m2 ensures g in names && reply(g).Success? && m2[g] == ParseAiResponse(reply(g).value) {
        if g != last {
          assert g in m && m2[g] == m[g];
          var i :| 0 <= i < |init| && init[i] == g;
          assert names[i] == g;
        }
      }
    }
  }

  /** When no reply failed, every category was gathered. */
  lemma {:induction false} CollectedComplete(names: seq<string>, reply: string -> Result<string>)
    requires ErrorOf(names, reply).None?
    ensures forall g :: g in names ==> g in Collected(names, reply)
  {
    if names != [] {
      var init, last := names[..|names| - 1], names[|names| - 1];
      assert ErrorOf(init, reply).None? && reply(last).Success?;
      CollectedComplete(init, reply);
      var m, m2 := Collected(init, reply), Collected(names, reply);
      assert m2 == m[last := ParseAiResponse(reply(last).value)];
      forall g | g in names ensures g in m2 {
        var i :| 0 <= i < |names| && names[i] == g;
        if i < |init| { assert init[i] == g; }
      }
    }
  }

  /** Asking for one more category, while no reply has failed yet. */
  lemma AskStep(names: seq<string>, k: nat, reply: string -> Result<string>)
    requires k < |names| && ErrorOf(names[..k], reply) == None
    ensures var r := reply(names[k]);
            ErrorOf(names[..k + 1], reply) == (if r.Failure? then Some(ErrorText(r.error)) else None)
            && Collected(names[..k + 1], reply) == if r.Success? then Collected(names[..k], reply)[names[k] := ParseAiResponse(r.value)] else Collected(names[..k], reply)
  {
    assert names[..k + 1][..k] == names[..k];
  }

  /** Once a reply has failed, asking for further categories changes nothing. */
  lemma {:induction false} StoppedStays(names: seq<string>, j: nat, reply: string -> Result<string>)
    requires j <= |names| && ErrorOf(names[..j], reply).Some?
    ensures ErrorOf(names, reply) == ErrorOf(names[..j], reply)
    ensures Collected(names, reply) == Collected(names[..j], reply)
  {
    if j < |names| {
      var init := names[..|names| - 1];
      assert init[..j] == names[..j];
      StoppedStays(init, j, reply);
    } else {
      assert names[..j] == names;
    }
  }

  /** Which list is on screen: the general one under 'All', else that category's, or none. */
  function CurrentSuggestions(selected: string, general: seq<Suggestion>, byCategory: map<string, seq<Suggestion>>): (r: seq<Suggestion>)
    ensures selected == "All" ==> r == general
    ensures selected != "All" && selected in byCategory ==> r == byCategory[selected]
    ensures selected != "All" && selected !in byCategory ==> r == []
  {
    if selected == "All" then general else if selected in byCategory then byCategory[selected] else []
  }

  // ---------------------------------------------------------------------
  // The page
  // ---------------------------------------------------------------------

  class AiAnalysisPage {
    var complaints: seq<Complaints.Complaint>
    var requests: seq<Maintenance.Request>
    var aiSuggestions: seq<Suggestion>
    var categorySuggestions: map<string, seq<Suggestion>>
    var isLoading: bool
    var selectedCategory: string
    /** The key as typed in the key dialog. */
    var openAiKey: string
    /** What the browser's storage holds under `openAiKey`. */
    var savedKey: Option<string>
    var error: Option<string>
    var showKeyModal: bool

    /** Loads the saved complaints, requests and key; missing ones leave empty lists and an empty key. */
    constructor (storedComplaints: Option<seq<Complaints.Complaint>>, storedRequests: Option<seq<Maintenance.Request>>, storedKey: Option<string>)
      ensures complaints == (if storedComplaints.Some? then storedComplaints.value else [])
      ensures requests == (if storedRequests.Some? then storedRequests.value else [])
      ensures openAiKey == (if storedKey.Some? then storedKey.value else "") && savedKey == storedKey
      ensures aiSuggestions == [] && categorySuggestions == map[] && !isLoading
      ensures selectedCategory == "All" && error == None && !showKeyModal
    {
      complaints := if storedComplaints.Some? then storedComplaints.value else [];
      requests := if storedRequests.Some? then storedRequests.value else [];
      openAiKey := if storedKey.Some? then storedKey.value else "";
      savedKey := storedKey;
      aiSuggestions := [];
      categorySuggestions := map[];
      isLoading := false;
      selectedCategory := "All";
      error := None;
      showKeyModal := false;
    }

    /**
     * The trend chart's data, bucket by bucket over a six-slot array as
     * the page fills it.
     */
    method TrendData(now: Date) returns (trend: seq<nat>)
      ensures trend == Trend(AllIssues(complaints, requests), now)
      ensures Sum6(trend) <= |complaints| + |requests|
    {
      trend := CountByMonth(AllIssues(complaints, requests), now);
    }

    /** `saveApiKey`: a key of only white space is refused with an error; otherwise it is saved and the dialog closes. */
    method SaveApiKey()
      modifies this
      ensures IsBlank(old(openAiKey)) ==> error == Some("Please enter a valid API key") && savedKey == old(savedKey) && showKeyModal == old(showKeyModal)
      ensures !IsBlank(old(openAiKey)) ==> error == None && savedKey == Some(old(openAiKey)) && !showKeyModal
      ensures openAiKey == old(openAiKey) && complaints == old(complaints) && requests == old(requests)
      ensures aiSuggestions == old(aiSuggestions) && categorySuggestions == old(categorySuggestions)
      ensures isLoading == old(isLoading) && selectedCategory == old(selectedCategory)
    {
      if IsBlank(openAiKey) {
        error := Some("Please enter a valid API key");
      } else {
        savedKey := Some(openAiKey);
        showKeyModal := false;
        error := None;
      }
    }

    /**
     * `getAiSuggestions`, with the service's answers as parameters: the
     * reply to the general prompt, and the reply for each category's
     * prompt.  Without a key the key dialog opens and nothing is asked;
     * without data the error 'No data available to analyze' is shown.
     * Otherwise the general suggestions come first, then the categories
     * in order until a reply fails, whose message becomes the error.
     */
    method GetAiSuggestions(general: Result<string>, reply: string -> Result<string>)
      modifies this
      ensures old(openAiKey) == "" ==>
                showKeyModal && error == old(error) && aiSuggestions == old(aiSuggestions)
                && categorySuggestions == old(categorySuggestions) && isLoading == old(isLoading)
      ensures old(openAiKey) != "" ==> !isLoading && showKeyModal == old(showKeyModal)
      ensures old(openAiKey) != "" && complaints == [] && requests == [] ==>
                error == Some("No data available to analyze") && aiSuggestions == [] && categorySuggestions == map[]
      ensures old(openAiKey) != "" && |complaints| + |requests| > 0 && general.Failure? ==>
                error == Some(ErrorText(general.error)) && aiSuggestions == [] && categorySuggestions == map[]
      ensures old(openAiKey) != "" && |complaints| + |requests| > 0 && general.Success? ==>
                var names := GroupNames(AllIssues(complaints, requests));
                aiSuggestions == ParseAiResponse(general.value)
                && categorySuggestions == Collected(names, reply)
                && error == ErrorOf(names, reply)
      ensures complaints == old(complaints) && requests == old(requests)
      ensures openAiKey == old(openAiKey) && savedKey == old(savedKey) && selectedCategory == old(selectedCategory)
    {
      if openAiKey == "" {
        showKeyModal := true;
        return;
      }
      isLoading := true;
      error := None;
      aiSuggestions := [];
      categorySuggestions := map[];
      var issues := AllIssues(complaints, requests);
      if |issues| == 0 {
        error := Some("No data available to analyze");
        isLoading := false;
        return;
      }
      if general.Failure? {
        error := Some(ErrorText(general.error));
        isLoading := false;
        return;
      }
      aiSuggestions := ParseAiResponse(general.value);
      var names := GroupNames(issues);
      categorySuggestions, error := AskCategories(names, reply);
      isLoading := false;
    }
  }

  /**
   * The trend data as the page fills it: six zero buckets, then one
   * increment per issue that falls in one.
   */
  method CountByMonth(issues: seq<Issue>, now: Date) returns (trend: seq<nat>)
    ensures trend == Trend(issues, now)
    ensures Sum6(trend) <= |issues|
  {
    var buckets := new nat[6](_ => 0);
    assert issues[..0] == [];
    var n := 0;
    while n < |issues|
      invariant 0 <= n <= |issues|
      invariant buckets[..] == Histogram(BucketsOf(issues[..n], now))
    {
      HistogramStep(issues, n, now);
      Increment(buckets, Bucket(now, issues[n]));
      n := n + 1;
    }
    assert issues[..n] == issues;
    trend := buckets[..];
    HistogramIsTrend(issues, now, trend);
  }

  /** One `counts[monthIdx]++` of the page's loop, skipped when the issue has no bucket. */
  method Increment(buckets: array<nat>, b: Option<nat>)
    requires buckets.Length == 6
    modifies buckets
    ensures buckets[..] == Tick(old(buckets[..]), b)
  {
    if b.Some? && b.value < 6 {
      buckets[b.value] := buckets[b.value] + 1;
    }
  }

  /** The counters filled bucket by bucket are the trend, holding at most every issue. */
  lemma HistogramIsTrend(issues: seq<Issue>, now: Date, t: seq<nat>)
    requires t == Histogram(BucketsOf(issues, now))
    ensures t == Trend(issues, now) && Sum6(t) <= |issues|
  {
    TrendIsHistogram(issues, now);
    TrendBounded(issues, now);
  }

  /** The bucket of each issue, in order. */
  function BucketsOf(issues: seq<Issue>, now: Date): (bs: seq<Option<nat>>)
    ensures |bs| == |issues|
  {
    if issues == [] then [] else BucketsOf(issues[..|issues| - 1], now) + [Bucket(now, issues[|issues| - 1])]
  }

  /** Each issue's bucket sits at the issue's position. */
  lemma {:induction false} BucketsOfAt(issues: seq<Issue>, now: Date)
    ensures forall i :: 0 <= i < |issues| ==> BucketsOf(issues, now)[i] == Bucket(now, issues[i])
  {
    if issues != [] {
      var init := issues[..|issues| - 1];
      BucketsOfAt(init, now);
      assert forall i :: 0 <= i < |init| ==> init[i] == issues[i];
    }
  }

  /** Adds one to bucket `b`, if it is one of the six. */
  function Tick(t: seq<nat>, b: Option<nat>): (u: seq<nat>)
    requires |t| == 6
    ensures |u| == 6
  {
    if b.Some? && b.value < 6 then t[b.value := t[b.value] + 1] else t
  }

  /** Six counters ticked once per bucket, as the page's loop fills them. */
  function Histogram(bs: seq<Option<nat>>): (t: seq<nat>)
    ensures |t| == 6
  {
    if bs == [] then [0, 0, 0, 0, 0, 0] else Tick(Histogram(bs[..|bs| - 1]), bs[|bs| - 1])
  }

  lemma HistogramStep(issues: seq<Issue>, n: nat, now: Date)
    requires n < |issues|
    ensures Histogram(BucketsOf(issues[..n + 1], now)) == Tick(Histogram(BucketsOf(issues[..n], now)), Bucket(now, issues[n]))
  {
    assert issues[..n + 1][..n] == issues[..n];
    var bs := BucketsOf(issues[..n + 1], now);
    assert bs[..n] == BucketsOf(issues[..n], now);
  }

  /** Ticking bucket by bucket counts the issues of each bucket. */
  lemma {:induction false} TrendIsHistogram(issues: seq<Issue>, now: Date)
    ensures Trend(issues, now) == Histogram(BucketsOf(issues, now))
  {
    if issues == [] {
      TrendEmpty(now);
    } else {
      var init, x := issues[..|issues| - 1], issues[|issues| - 1];
      TrendIsHistogram(init, now);
      assert issues == init + [x];
      TrendSnoc(init, x, now);
      var bs := BucketsOf(issues, now);
      assert bs[..|bs| - 1] == BucketsOf(init, now);
    }
  }

  /**
   * The loop over the categories: each reply in turn, its suggestions
   * stored under its category, until one fails.
   */
  method AskCategories(names: seq<string>, reply: string -> Result<string>) returns (collected: map<string, seq<Suggestion>>, error: Option<string>)
    ensures collected == Collected(names, reply) && error == ErrorOf(names, reply)
  {
    collected := map[];
    error := None;
    var k := 0;
    assert names[..0] == [];
    while k < |names|
      invariant 0 <= k <= |names| && error == None
      invariant ErrorOf(names[..k], reply) == None && collected == Collected(names[..k], reply)
    {
      var r := reply(names[k]);
      AskStep(names, k, reply);
      if r.Failure? {
        error := Some(ErrorText(r.error));
        StoppedStays(names, k + 1, reply);
        return;
      }
      collected := collected[names[k] := ParseAiResponse(r.value)];
      k := k + 1;
    }
    assert names[..k] == names;
  }

  /** Counting over a list with one more record. */
  lemma {:induction false} CountSnoc<T>(s: seq<T>, x: T, p: T -> bool)
    ensures Count(s + [x], p) == Count(s, p) + (if p(x) then 1 else 0)
  {
    if s == [] {
      assert s + [x] == [x];
    } else {
      assert (s + [x])[1..] == s[1..] + [x];
      CountSnoc(s[1..], x, p);
    }
  }
}
