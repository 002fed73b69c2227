/**
 * The dashboard: headline figures, the room types table, the tabs a
 * role may open, and the chat box.  The figures live in the browser's
 * storage under `dashboardData`; the signed-in user is read from
 * `hostelCurrentUser`.
 */
module Dashboard {
  import opened Js
  import opened Store

  // ---------------------------------------------------------------------
  // The signed-in user
  // ---------------------------------------------------------------------

  /**
   * The user the dashboard shows: each field as stored when it is
   * truthy, otherwise 'Admin User', 'admin@hostel.com', 'admin' and null.
   */
  function CurrentUser(stored: Obj): (u: Obj)
    ensures u.Keys == {"name", "email", "role", "picture"}
    ensures Truthy(Get(stored, "name")) ==> u["name"] == stored["name"]
    ensures !Truthy(Get(stored, "name")) ==> u["name"] == JStr("Admin User")
    ensures Truthy(Get(stored, "email")) ==> u["email"] == stored["email"]
    ensures !Truthy(Get(stored, "email")) ==> u["email"] == JStr("admin@hostel.com")
    ensures Truthy(Get(stored, "role")) ==> u["role"] == stored["role"]
    ensures !Truthy(Get(stored, "role")) ==> u["role"] == JStr("admin")
    ensures Truthy(Get(stored, "picture")) ==> u["picture"] == stored["picture"]
    ensures !Truthy(Get(stored, "picture")) ==> u["picture"] == JNull
  {
    map["name" := Or(Get(stored, "name"), JStr("Admin User")),
        "email" := Or(Get(stored, "email"), JStr("admin@hostel.com")),
        "role" := Or(Get(stored, "role"), JStr("admin")),
        "picture" := Or(Get(stored, "picture"), JNull)]
  }

  /**
   * The user as the page reads it: with nothing stored, `getItem`
   * gives null, `null || {}` gives an object, and `JSON.parse` of an
   * object parses the text "[object Object]", which is not JSON.
   */
  function CurrentUserAsWritten(stored: Option<Obj>): (r: Result<Obj>)
    ensures stored.Some? ==> r == Success(CurrentUser(stored.value))
  {
    if stored.None? then Failure("SyntaxError: \"[object Object]\" is not valid JSON")
    else Success(CurrentUser(stored.value))
  }

  /** With nobody signed in the page fails before it renders, although defaults for every field exist. */
  lemma NobodyStoredFails()
    ensures CurrentUserAsWritten(None).Failure?
    ensures CurrentUserOrDefaults(None) == CurrentUser(map[])
  {
  }

  /** The evidently intended reading: nothing stored means every default. */
  function CurrentUserOrDefaults(stored: Option<Obj>): (u: Obj)
    ensures stored.None? ==> u == map["name" := JStr("Admin User"), "email" := JStr("admin@hostel.com"),
                                     "role" := JStr("admin"), "picture" := JNull]
    ensures stored.Some? ==> u == CurrentUser(stored.value)
  {
    CurrentUser(if stored.Some? then stored.value else map[])
  }

  // ---------------------------------------------------------------------
  // Tabs
  // ---------------------------------------------------------------------

  const AdminTabs := ["overview", "rooms", "analytics", "settings"]
  const WardenTabs := ["overview", "rooms", "analytics"]
  const GuardTabs := ["overview"]

  /** `availableTabs`: admin gets all four tabs, warden three, any other role only the overview. */
  function AvailableTabs(role: Json): (tabs: seq<string>)
    ensures role == JStr("admin") ==> tabs == AdminTabs
    ensures role == JStr("warden") ==> tabs == WardenTabs
    ensures role != JStr("admin") && role != JStr("warden") ==> tabs == GuardTabs
    ensures tabs != [] && tabs[0] == "overview"
  {
    if role == JStr("admin") then AdminTabs else if role == JStr("warden") then WardenTabs else GuardTabs
  }

  /** Whether the page draws a tab's content for a role. */
  predicate Renders(tab: string, role: Json) {
    || tab == "overview"
    || ((tab == "rooms" || tab == "analytics") && role != JStr("guard"))
    || (tab == "settings" && role == JStr("admin"))
  }

  /** Every tab a role is offered has content for that role. */
  lemma OfferedTabsRender(role: Json)
    ensures forall t :: t in AvailableTabs(role) ==> Renders(t, role)
  {
  }

  /** Only an administrator sees the settings tab, with its reset button. */
  lemma SettingsOnlyForAdmin(role: Json)
    ensures "settings" in AvailableTabs(role) <==> role == JStr("admin")
  {
  }

  // ---------------------------------------------------------------------
  // Room types
  // ---------------------------------------------------------------------

  /** The room types object: type names with counts, in insertion order. */
  type Entries = seq<(string, Num)>

  predicate DistinctNames(es: Entries) {
    forall i, j :: 0 <= i < j < |es| ==> es[i].0 != es[j].0
  }

  /** Where a type sits among the entries: its first index, if any. */
  function Position(es: Entries, name: string): (r: Option<nat>)
    ensures r.Some? ==> r.value < |es| && es[r.value].0 == name
    ensures r.Some? ==> forall j :: 0 <= j < r.value ==> es[j].0 != name
    ensures r.None? <==> forall j :: 0 <= j < |es| ==> es[j].0 != name
  {
    if es == [] then None
    else match Position(es[..|es| - 1], name)
      case Some(i) => Some(i)
      case None => if es[|es| - 1].0 == name then Some(|es| - 1) else None
  }

  /** `roomTypes[name]`; `undefined` when absent. */
  function Find(es: Entries, name: string): (r: Option<Num>)
    ensures r.Some? <==> exists j :: 0 <= j < |es| && es[j].0 == name
    ensures DistinctNames(es) ==> forall j :: 0 <= j < |es| && es[j].0 == name ==> r == Some(es[j].1)
  {
    match Position(es, name)
    case Some(i) => Some(es[i].1)
    case None => None
  }

  /** The sum of the counts; `NaN` once any count is. */
  function SumCounts(es: Entries): Num {
    if es == [] then Int(0) else SumCounts(es[..|es| - 1]).Plus(es[|es| - 1].1)
  }

  /**
   * `{...roomTypes, [name]: count}`: an existing type keeps its place
   * and takes the new count, a new one goes at the end.
   */
  function Put(es: Entries, name: string, count: Num): (r: Entries)
    ensures Find(r, name) == Some(count)
    ensures forall k :: k != name ==> Find(r, k) == Find(es, k)
  {
    match Position(es, name)
    case Some(i) =>
      var r := es[i := (name, count)];
      assert forall k :: k != name ==> Find(r, k) == Find(es, k) by {
        forall k | k != name ensures Find(r, k) == Find(es, k) {
          if Position(es, k).Some? {
            FindAt(r, k, Position(es, k).value);
          }
        }
      }
      FindAt(r, name, i);
      r
    case None =>
      var r := es + [(name, count)];
      assert forall k :: k != name ==> Find(r, k) == Find(es, k) by {
        forall k | k != name ensures Find(r, k) == Find(es, k) {
          if Position(es, k).Some? {
            FindAt(r, k, Position(es, k).value);
          }
        }
      }
      FindAt(r, name, |es|);
      r
  }

  /** The spread keeps every type in its place and adds a new one only when it is missing. */
  lemma PutShape(es: Entries, name: string, count: Num)
    ensures |Put(es, name, count)| == if Find(es, name).Some? then |es| else |es| + 1
    ensures forall j :: 0 <= j < |es| ==> Put(es, name, count)[j].0 == es[j].0
    ensures DistinctNames(es) ==> DistinctNames(Put(es, name, count))
  {
  }

  /** The first entry of a type is the one `roomTypes[name]` gives. */
  lemma FindAt(es: Entries, name: string, j: nat)
    requires j < |es| && es[j].0 == name
    requires forall m :: 0 <= m < j ==> es[m].0 != name
    ensures Position(es, name) == Some(j) && Find(es, name) == Some(es[j].1)
  {
  }

  /** Whether an entry is of another type than the one removed. */
  function Other(name: string): ((string, Num)) -> bool {
    (e: (string, Num)) => e.0 != name
  }

  /** The entries without the named type, the rest in order. */
  function Delete(es: Entries, name: string): (r: Entries)
    ensures Find(r, name) == None
    ensures forall i :: 0 <= i < |r| ==> r[i] in es
    ensures DistinctNames(es) ==> DistinctNames(r)
    ensures DistinctNames(es) ==> forall k :: k != name ==> Find(r, k) == Find(es, k)
    ensures Find(es, name) == None ==> r == es
  {
    var r := Filter(es, Other(name));
    assert forall i :: 0 <= i < |r| ==> r[i].0 != name;
    assert DistinctNames(es) ==> DistinctNames(r) && forall k :: k != name ==> Find(r, k) == Find(es, k) by {
      if DistinctNames(es) {
        DeleteDistinct(es, name);
        forall k | k != name ensures Find(r, k) == Find(es, k) {
          if j :| 0 <= j < |es| && es[j].0 == k {
            assert es[j] in r;
          }
        }
      }
    }
    r
  }

  lemma {:induction false} DeleteDistinct(es: Entries, name: string)
    requires DistinctNames(es)
    ensures DistinctNames(Filter(es, Other(name)))
  {
    if es != [] {
      DeleteDistinct(es[1..], name);
      var rest := Filter(es[1..], Other(name));
      assert forall i :: 0 <= i < |rest| ==> rest[i].0 != es[0].0 by {
        forall i | 0 <= i < |rest| ensures rest[i].0 != es[0].0 {
          assert rest[i] in es[1..];
        }
      }
    }
  }

  predicate AllInt(es: Entries) {
    forall i :: 0 <= i < |es| ==> es[i].1.Int?
  }

  /** Adding a type that is not there yet adds its count to the sum. */
  lemma PutNewSum(es: Entries, name: string, count: Num)
    requires Find(es, name).None?
    ensures SumCounts(Put(es, name, count)) == SumCounts(es).Plus(count)
  {
    assert (es + [(name, count)])[..|es|] == es;
  }

  /** Removing a type takes its count off the sum. */
  lemma DeleteSum(es: Entries, name: string)
    requires DistinctNames(es) && AllInt(es) && Find(es, name).Some?
    ensures SumCounts(Delete(es, name)) == SumCounts(es).Minus(Find(es, name).value)
    ensures SumCounts(es).Int?
  {
    FilterWithout(es, name);
    FilterSum(es, name, Position(es, name).value);
  }

  /** The same entries as `Delete`, built from the back like `SumCounts`. */
  function Without(es: Entries, name: string): Entries {
    if es == [] then []
    else Without(es[..|es| - 1], name) + (if es[|es| - 1].0 == name then [] else [es[|es| - 1]])
  }

  lemma {:induction false} FilterWithout(es: Entries, name: string)
    ensures Filter(es, Other(name)) == Without(es, name)
  {
    if es != [] {
      var init, last := es[..|es| - 1], es[|es| - 1];
      assert es == init + [last];
      FilterAppend(init, [last], Other(name));
      FilterWithout(init, name);
      assert Filter([last], Other(name)) == if last.0 == name then [] else [last];
    }
  }

  lemma {:induction false} FilterSum(es: Entries, name: string, p: nat)
    requires AllInt(es) && p < |es| && es[p].0 == name
    requires forall i :: 0 <= i < |es| && i != p ==> es[i].0 != name
    ensures SumCounts(Without(es, name)) == SumCounts(es).Minus(es[p].1)
    ensures SumCounts(es).Int?
  {
    var init, last := es[..|es| - 1], es[|es| - 1];
    SumInt(init);
    if p == |es| - 1 {
      WithoutAbsent(init, name);
      assert Without(es, name) == Without(init, name) + [];
      assert Without(es, name) == init;
    } else {
      assert init[p] == es[p];
      FilterSum(init, name, p);
      var d := Without(init, name);
      assert Without(es, name) == d + [last];
      assert es == init + [last];
      SumSnoc(d, init, last, es[p].1);
    }
  }

  /** Adding the same entry after both sides keeps a difference of sums. */
  lemma SumSnoc(d: Entries, init: Entries, last: (string, Num), x: Num)
    requires SumCounts(init).Int? && last.1.Int?
    requires SumCounts(d) == SumCounts(init).Minus(x)
    ensures SumCounts(d + [last]) == SumCounts(init + [last]).Minus(x)
    ensures SumCounts(init + [last]).Int?
  {
    assert (d + [last])[..|d|] == d;
    assert (init + [last])[..|init|] == init;
  }

  lemma {:induction false} WithoutAbsent(es: Entries, name: string)
    requires forall i :: 0 <= i < |es| ==> es[i].0 != name
    ensures Without(es, name) == es
  {
    if es != [] {
      WithoutAbsent(es[..|es| - 1], name);
    }
  }

  lemma {:induction false} SumInt(es: Entries)
    requires AllInt(es)
    ensures SumCounts(es).Int?
  {
    if es != [] { SumInt(es[..|es| - 1]); }
  }

  // ---------------------------------------------------------------------
  // The dashboard record
  // ---------------------------------------------------------------------

  datatype Activity = Activity(id: int, kind: string, description: string, time: string, status: string)
  datatype Event = Event(id: int, title: string, date: string, time: string)

  /** The `dashboardData` record; `rooms` can become `NaN` through a count that does not parse. */
  datatype Data = Data(
    rooms: Num,
    complaints: int,
    visitors: int,
    students: int,
    staff: int,
    complaintsData: seq<int>,
    roomTypes: Entries,
    visitorTrend: seq<int>,
    recentActivities: seq<Activity>,
    upcomingEvents: seq<Event>)

  /** The figures shown before anything is saved, and restored by a reset. */
  const Seed: Data :=
    Data(Int(25), 8, 42, 120, 15,
      [5, 8, 6, 10, 7, 4, 9],
      SeedTypes,
      [20, 25, 30, 35, 40, 42],
      [Activity(1, "complaint", "Water leakage in room 205", "2 hours ago", "pending"),
       Activity(2, "maintenance", "AC repair in room 312", "5 hours ago", "in-progress"),
       Activity(3, "visitor", "Visitor check-in for room 108", "Yesterday", "completed")],
      [Event(1, "Hostel Committee Meeting", "2023-06-15", "10:00 AM"),
       Event(2, "Fire Safety Drill", "2023-06-18", "9:00 AM"),
       Event(3, "Student Orientation", "2023-06-20", "2:00 PM")])

  const SeedTypes: Entries :=
    [("Single", Int(10)), ("Double", Int(8)), ("Suite", Int(5)), ("Dorm", Int(2))]

  /** The room total agrees with the room types: what adding and removing types should keep. */
  predicate RoomsMatchTypes(d: Data) {
    d.rooms == SumCounts(d.roomTypes)
  }

  lemma SeedRoomsMatch()
    ensures RoomsMatchTypes(Seed) && DistinctNames(Seed.roomTypes) && AllInt(Seed.roomTypes)
  {
    var es := SeedTypes;
    assert SumCounts(es[..1]) == Int(10) by { assert es[..1][..0] == []; }
    assert SumCounts(es[..2]) == Int(18) by { assert es[..2][..1] == es[..1]; }
    assert SumCounts(es[..3]) == Int(23) by { assert es[..3][..2] == es[..2]; }
    assert es[..4] == es;
  }

  /**
   * `addRoomType`: with a type and a count given, the type takes the
   * parsed count and the total grows by it; otherwise nothing changes.
   */
  function AddRoomType(d: Data, name: string, count: string): (r: Data)
    ensures name == "" || count == "" ==> r == d
    ensures name != "" && count != "" ==>
              r.rooms == d.rooms.Plus(ParseInt(count)) && r.roomTypes == Put(d.roomTypes, name, ParseInt(count))
    ensures r.(rooms := d.rooms, roomTypes := d.roomTypes) == d
  {
    if name != "" && count != "" then
      d.(roomTypes := Put(d.roomTypes, name, ParseInt(count)), rooms := d.rooms.Plus(ParseInt(count)))
    else d
  }

  /** Adding a new type keeps the total in agreement with the types. */
  lemma AddNewTypeKeepsMatch(d: Data, name: string, count: string)
    requires RoomsMatchTypes(d) && Find(d.roomTypes, name).None?
    ensures RoomsMatchTypes(AddRoomType(d, name, count))
  {
    if name != "" && count != "" {
      PutNewSum(d.roomTypes, name, ParseInt(count));
    }
  }

  /**
   * Giving a type that is there the count it already has still adds
   * that count to the total, so the total no longer agrees with the
   * types whenever the count is not 0.
   */
  lemma ReplacingTypeAddsAgain(d: Data, name: string, count: string)
    requires name != "" && count != "" && Find(d.roomTypes, name) == Some(ParseInt(count))
    ensures AddRoomType(d, name, count).roomTypes == d.roomTypes
    ensures AddRoomType(d, name, count).rooms == d.rooms.Plus(ParseInt(count))
  {
    FindAt(d.roomTypes, name, Position(d.roomTypes, name).value);
  }

  /** On the seed, setting 'Single' to 10 again makes the total 35 while the types still add up to 25. */
  lemma SeedSingleAgain()
    ensures var r := AddRoomType(Seed, "Single", "10");
            r.rooms == Int(35) && SumCounts(r.roomTypes) == Int(25) && !RoomsMatchTypes(r)
  {
    ParseTen();
    FindAt(SeedTypes, "Single", 0);
    ReplacingTypeAddsAgain(Seed, "Single", "10");
    SeedRoomsMatch();
  }

  lemma ParseTen()
    ensures ParseInt("10") == Int(10)
  {
    ParseIntOfNat(10);
    assert NatToString(10) == "10";
  }

  /** `removeRoomType`: the type goes and the total drops by its count (`NaN` for a missing type). */
  function RemoveRoomType(d: Data, name: string): (r: Data)
    ensures r.roomTypes == Delete(d.roomTypes, name)
    ensures r.rooms == d.rooms.Minus(CountOf(d.roomTypes, name))
    ensures r.(rooms := d.rooms, roomTypes := d.roomTypes) == d
  {
    d.(rooms := d.rooms.Minus(CountOf(d.roomTypes, name)), roomTypes := Delete(d.roomTypes, name))
  }

  /** `roomTypes[name]` in arithmetic: the count, or `NaN` for a missing type. */
  function CountOf(es: Entries, name: string): (c: Num)
    ensures Find(es, name).Some? ==> c == Find(es, name).value
    ensures Find(es, name).None? ==> c == NaN
  {
    match Find(es, name) case Some(c) => c case None => NaN
  }

  /** Removing a listed type keeps the total in agreement with the types. */
  lemma RemoveTypeKeepsMatch(d: Data, name: string)
    requires RoomsMatchTypes(d) && DistinctNames(d.roomTypes) && AllInt(d.roomTypes)
    requires Find(d.roomTypes, name).Some?
    ensures RoomsMatchTypes(RemoveRoomType(d, name))
  {
    DeleteSum(d.roomTypes, name);
  }

  /**
   * The share column, `Math.round(count / rooms * 100)`; none for a
   * total of 0 (where the page shows `Infinity` or `NaN`).
   */
  function Share(count: int, rooms: int): (p: Option<int>)
    ensures rooms == 0 <==> p.None?
    ensures rooms > 0 ==> p.Some? && 2 * rooms * p.value - rooms <= 200 * count < 2 * rooms * p.value + rooms
    ensures 0 <= count <= rooms && rooms > 0 ==> 0 <= p.value <= 100
  {
    if rooms == 0 then None
    else if rooms < 0 then Some(RoundDiv(-100 * count, -rooms))
    else
      assert 0 <= count <= rooms ==> 0 <= Percent(count, rooms) <= 100 by {
        if 0 <= count <= rooms { PercentBounds(count, rooms); }
      }
      Some(Percent(count, rooms))
  }

  // ---------------------------------------------------------------------
  // The page
  // ---------------------------------------------------------------------

  datatype Message = Message(sender: string, text: string)

  /** The assistant's greeting after the user's first name. */
  const GreetingTail := "! How can I assist you with hostel management today?"

  /** `currentUser.name.split(' ')[0]`: the first word of the name; '' when there is no name text. */
  function FirstName(user: Obj): (f: string)
    ensures ' ' !in f
  {
    match Get(user, "name")
    case Some(JStr(s)) => Split(s, ' ')[0]
    case _ => ""
  }

  /** The first name is the name's first word: it runs up to the first space, or to the end. */
  lemma FirstNameIsFirstWord(user: Obj, s: string)
    requires Get(user, "name") == Some(JStr(s))
    ensures |FirstName(user)| <= |s| && FirstName(user) == s[..|FirstName(user)|]
    ensures |FirstName(user)| == |s| || s[|FirstName(user)|] == ' '
  {
    SplitHead(s, ' ');
  }

  /** Without a name string there is no first name. */
  lemma NoNameNoFirstName(user: Obj)
    requires forall s :: Get(user, "name") != Some(JStr(s))
    ensures FirstName(user) == ""
  {
  }

  class DashboardPage {
    var currentUser: Obj
    var data: Data
    /** What the browser's storage holds under `dashboardData`. */
    var saved: Option<Data>
    var activeTab: string
    var newRoomType: string
    var newRoomCount: string
    var chatMessages: seq<Message>
    var userInput: string

    predicate Saved()
      reads this
    {
      saved == Some(data)
    }

    /** Loads the user (with defaults) and the saved figures, or the seed figures. */
    constructor (storedUser: Option<Obj>, storedData: Option<Data>)
      ensures currentUser == CurrentUserOrDefaults(storedUser)
      ensures data == (if storedData.Some? then storedData.value else Seed) && Saved()
      ensures activeTab == "overview" && newRoomType == "" && newRoomCount == "" && userInput == ""
      ensures chatMessages == [Message("bot", "Hello " + FirstName(currentUser) + GreetingTail)]
    {
      var user := CurrentUserOrDefaults(storedUser);
      var d := if storedData.Some? then storedData.value else Seed;
      currentUser, data, saved := user, d, Some(d);
      activeTab, newRoomType, newRoomCount, userInput := "overview", "", "", "";
      chatMessages := [Message("bot", "Hello " + FirstName(user) + GreetingTail)];
    }

    /** The add button of the room types form; the form clears after a change. */
    method AddRoom()
      requires Saved()
      modifies this
      ensures data == AddRoomType(old(data), old(newRoomType), old(newRoomCount)) && Saved()
      ensures old(newRoomType) != "" && old(newRoomCount) != "" ==> newRoomType == "" && newRoomCount == ""
      ensures old(newRoomType) == "" || old(newRoomCount) == "" ==> newRoomType == old(newRoomType) && newRoomCount == old(newRoomCount)
      ensures currentUser == old(currentUser) && activeTab == old(activeTab)
      ensures chatMessages == old(chatMessages) && userInput == old(userInput)
    {
      if newRoomType != "" && newRoomCount != "" {
        Commit(AddRoomType(data, newRoomType, newRoomCount));
        newRoomType, newRoomCount := "", "";
      }
    }

    /** The remove button of a room type's row. */
    method RemoveRoom(name: string)
      requires Saved()
      modifies this
      ensures data == RemoveRoomType(old(data), name) && Saved()
      ensures currentUser == old(currentUser) && activeTab == old(activeTab)
      ensures newRoomType == old(newRoomType) && newRoomCount == old(newRoomCount)
      ensures chatMessages == old(chatMessages) && userInput == old(userInput)
    {
      Commit(RemoveRoomType(data, name));
    }

    /** `setData`, then the effect that saves the figures under `dashboardData`. */
    method Commit(r: Data)
      modifies this
      ensures data == r && Saved()
      ensures currentUser == old(currentUser) && activeTab == old(activeTab)
      ensures newRoomType == old(newRoomType) && newRoomCount == old(newRoomCount)
      ensures chatMessages == old(chatMessages) && userInput == old(userInput)
    {
      data, saved := r, Some(r);
    }

    /** `resetData`, with the answer to the confirmation dialog: the seed figures come back. */
    method ResetData(confirmed: bool)
      requires Saved()
      modifies this
      ensures confirmed ==> data == Seed
      ensures !confirmed ==> data == old(data)
      ensures Saved()
      ensures currentUser == old(currentUser) && activeTab == old(activeTab)
      ensures newRoomType == old(newRoomType) && newRoomCount == old(newRoomCount)
      ensures chatMessages == old(chatMessages) && userInput == old(userInput)
    {
      if confirmed {
        saved := None;
        data := Seed;
        saved := Some(data);
      }
    }

    /**
     * `handleSendMessage`: a message of only white space does nothing;
     * otherwise it is added as the user's and the input clears.  The
     * delayed bot reply, picked at random, is not modelled.
     */
    method SendMessage()
      modifies this
      ensures IsBlank(old(userInput)) ==> chatMessages == old(chatMessages) && userInput == old(userInput)
      ensures !IsBlank(old(userInput)) ==> chatMessages == old(chatMessages) + [Message("user", old(userInput))] && userInput == ""
      ensures currentUser == old(currentUser) && data == old(data) && saved == old(saved)
      ensures activeTab == old(activeTab) && newRoomType == old(newRoomType) && newRoomCount == old(newRoomCount)
    {
      if !IsBlank(userInput) {
        chatMessages := chatMessages + [Message("user", userInput)];
        userInput := "";
      }
    }
  }
}
