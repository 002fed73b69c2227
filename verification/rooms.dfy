/**
 * Hostel room allocation: rooms with a capacity and a list of occupants,
 * allocating a student to a room, deallocating one, and the room search.
 * Each room stores a status ('Available', 'Partially Occupied' or
 * 'Occupied') that the two operations recompute from the occupant count.
 * The rooms live in the browser's storage under the key `hostelRooms`.
 */
module Rooms {
  import opened Js
  import opened Store
  import opened Calendar

  datatype Occupant = Occupant(
    id: string,
    name: string,
    course: string,
    year: string,
    foodPreference: string,
    allocatedOn: string,
    feesPaid: bool,
    contact: string)

  /** A room; `kind` is the source's `type` field. */
  datatype Room = Room(
    id: int,
    kind: string,
    capacity: int,
    occupants: seq<Occupant>,
    amenities: seq<string>,
    status: string)

  /** The allocation form; `roomId` holds the room id as text, as the select gives it. */
  datatype Allocation = Allocation(
    roomId: string, studentId: string, studentName: string, course: string, year: string,
    foodPreference: string, duration: string)

  const BlankAllocation := Allocation("", "", "", "", "", "Vegetarian", "Academic Year")

  const Available := "Available"
  const Partial := "Partially Occupied"
  const Occupied := "Occupied"

  /** The rooms shown before anything has been saved; room 103 is stored as 'Available' with 2 of 8 places taken. */
  const Seed: seq<Room> :=
    [Room(101, "Single AC", 1,
       [Occupant("S001", "Rahul Sharma", "B.Tech CSE", "3rd", "Vegetarian", "2023-06-15", true, "rahul.sharma@example.com")],
       ["AC", "WiFi", "Attached Bathroom", "Study Table"], Occupied),
     Room(102, "Double Non-AC", 2,
       [Occupant("S002", "Priya Patel", "B.Sc Physics", "2nd", "Vegetarian", "2023-07-10", true, "priya.patel@example.com"),
        Occupant("S003", "Neha Gupta", "B.Com", "1st", "Vegan", "2023-07-10", false, "neha.gupta@example.com")],
       ["WiFi", "Common Bathroom", "Study Table"], Partial),
     Room(103, "Dormitory", 8,
       [Occupant("S004", "Amit Singh", "B.Tech ME", "4th", "Non-Vegetarian", "2023-06-01", true, "amit.singh@example.com"),
        Occupant("S005", "Vikram Joshi", "B.Tech ECE", "4th", "Vegetarian", "2023-06-01", true, "vikram.joshi@example.com")],
       ["Common Bathroom", "Study Hall", "Laundry Service"], Available)]

  /** The saved rooms when there are some, the seed rooms otherwise. */
  function Initial(stored: Option<seq<Room>>): seq<Room> {
    if stored.Some? then stored.value else Seed
  }

  // ---------------------------------------------------------------------
  // Status
  // ---------------------------------------------------------------------

  /** The status a room with `count` occupants and the given capacity should carry. */
  function StatusFor(count: int, capacity: int): string {
    if count == 0 then Available else if count < capacity then Partial else Occupied
  }

  /** A room within its capacity whose stored status agrees with its occupant count. */
  predicate Consistent(r: Room) {
    1 <= r.capacity && |r.occupants| <= r.capacity && r.status == StatusFor(|r.occupants|, r.capacity)
  }

  /** The seed is stored as written, not recomputed: room 103 carries a status its count does not give it. */
  lemma SeedStatusStale()
    ensures !Consistent(Seed[2])
  {
  }

  // ---------------------------------------------------------------------
  // Allocation
  // ---------------------------------------------------------------------

  /** The occupant an allocation adds: not yet paid, no contact, allocated today. */
  function NewOccupant(a: Allocation, today: string): Occupant {
    Occupant(a.studentId, a.studentName, a.course, a.year, a.foodPreference, today, false, "")
  }

  /**
   * One room after a student is added: the occupant goes at the end and
   * the status becomes 'Occupied' when the count reaches the capacity,
   * 'Partially Occupied' otherwise.  The capacity is not checked here.
   */
  function WithOccupant(r: Room, o: Occupant): (r': Room)
    ensures r'.occupants == r.occupants + [o]
    ensures r'.status == if |r.occupants| + 1 == r.capacity then Occupied else Partial
    ensures r'.id == r.id && r'.kind == r.kind && r'.capacity == r.capacity && r'.amenities == r.amenities
  {
    r.(occupants := r.occupants + [o], status := if |r.occupants| + 1 == r.capacity then Occupied else Partial)
  }

  /** Adding a student to a consistent room with a free place leaves it consistent. */
  lemma WithOccupantConsistent(r: Room, o: Occupant)
    requires Consistent(r) && |r.occupants| < r.capacity
    ensures Consistent(WithOccupant(r, o))
  {
  }

  function IdText(id: string): Room -> bool {
    (r: Room) => IntToString(r.id) == id
  }

  function AddTo(o: Occupant): Room -> Room {
    (r: Room) => WithOccupant(r, o)
  }

  /**
   * `handleAllocateRoom`: with a room id, student id and student name
   * given, the room whose id reads as `a.roomId` gains the student;
   * otherwise the alert 'Please fill all required fields' and no change.
   */
  function Allocated(rooms: seq<Room>, a: Allocation, today: string): (r: Result<seq<Room>>)
    ensures a.roomId == "" || a.studentId == "" || a.studentName == "" <==> r == Failure("Please fill all required fields")
    ensures r.Success? ==> |r.value| == |rooms|
    ensures r.Success? ==> forall i :: 0 <= i < |rooms| && IntToString(rooms[i].id) == a.roomId ==>
              r.value[i] == WithOccupant(rooms[i], NewOccupant(a, today))
    ensures r.Success? ==> forall i :: 0 <= i < |rooms| && IntToString(rooms[i].id) != a.roomId ==> r.value[i] == rooms[i]
  {
    if a.roomId == "" || a.studentId == "" || a.studentName == "" then Failure("Please fill all required fields")
    else Success(Update(rooms, IdText(a.roomId), AddTo(NewOccupant(a, today))))
  }

  /** The room id text picks out at most the one room with that id. */
  lemma IdTextPicksOne(r: Room, id: int)
    ensures IdText(IntToString(id))(r) <==> r.id == id
  {
    if IntToString(r.id) == IntToString(id) {
      IntToStringInjective(r.id, id);
    }
  }

  // ---------------------------------------------------------------------
  // Deallocation
  // ---------------------------------------------------------------------

  function NotStudent(studentId: string): Occupant -> bool {
    (o: Occupant) => o.id != studentId
  }

  /**
   * One room after a student leaves: every occupant with that id goes;
   * the status becomes 'Available' when nobody is left, 'Partially
   * Occupied' when the count is below the capacity, and stays otherwise.
   */
  function WithoutOccupant(r: Room, studentId: string): (r': Room)
    ensures forall i :: 0 <= i < |r'.occupants| ==> r'.occupants[i] in r.occupants && r'.occupants[i].id != studentId
    ensures forall i :: 0 <= i < |r.occupants| && r.occupants[i].id != studentId ==> r.occupants[i] in r'.occupants
    ensures r'.occupants == [] ==> r'.status == Available
    ensures r'.occupants != [] && |r'.occupants| < r.capacity ==> r'.status == Partial
    ensures r'.occupants != [] && |r'.occupants| >= r.capacity ==> r'.status == r.status
    ensures r'.id == r.id && r'.kind == r.kind && r'.capacity == r.capacity && r'.amenities == r.amenities
  {
    var remaining := Filter(r.occupants, NotStudent(studentId));
    var newStatus :=
      if |remaining| == 0 then Available
      else if |remaining| < r.capacity then Partial
      else r.status;
    r.(occupants := remaining, status := newStatus)
  }

  /** Removing a student keeps a consistent room consistent. */
  lemma WithoutOccupantConsistent(r: Room, studentId: string)
    requires Consistent(r)
    ensures Consistent(WithoutOccupant(r, studentId))
  {
    var remaining := WithoutOccupant(r, studentId).occupants;
    assert |remaining| <= |r.occupants|;
  }

  function HasId(id: int): Room -> bool {
    (r: Room) => r.id == id
  }

  function RemoveFrom(studentId: string): Room -> Room {
    (r: Room) => WithoutOccupant(r, studentId)
  }

  /** `handleDeallocate(roomId, studentId)`: nothing unless confirmed; then that room loses the student. */
  function Deallocated(rooms: seq<Room>, roomId: int, studentId: string, confirmed: bool): (r: seq<Room>)
    ensures !confirmed ==> r == rooms
    ensures |r| == |rooms|
    ensures confirmed ==> forall i :: 0 <= i < |rooms| && rooms[i].id == roomId ==> r[i] == WithoutOccupant(rooms[i], studentId)
    ensures forall i :: 0 <= i < |rooms| && rooms[i].id != roomId ==> r[i] == rooms[i]
  {
    if !confirmed then rooms else Update(rooms, HasId(roomId), RemoveFrom(studentId))
  }

  predicate AllConsistent(rooms: seq<Room>) {
    forall i :: 0 <= i < |rooms| ==> Consistent(rooms[i])
  }

  /** Deallocation keeps every room's status in agreement with its count. */
  lemma DeallocatedConsistent(rooms: seq<Room>, roomId: int, studentId: string, confirmed: bool)
    requires AllConsistent(rooms)
    ensures AllConsistent(Deallocated(rooms, roomId, studentId, confirmed))
  {
    var r := Deallocated(rooms, roomId, studentId, confirmed);
    forall i | 0 <= i < |r| ensures Consistent(r[i]) {
      if confirmed && rooms[i].id == roomId {
        WithoutOccupantConsistent(rooms[i], studentId);
      }
    }
  }

  /**
   * Allocation from the form keeps every room consistent when the room
   * chosen still has a free place, which is what the form's room list and
   * the disabled button see to.
   */
  lemma AllocatedConsistent(rooms: seq<Room>, a: Allocation, today: string)
    requires AllConsistent(rooms)
    requires forall i :: 0 <= i < |rooms| && IntToString(rooms[i].id) == a.roomId ==> |rooms[i].occupants| < rooms[i].capacity
    ensures Allocated(rooms, a, today).Success? ==> AllConsistent(Allocated(rooms, a, today).value)
  {
    var res := Allocated(rooms, a, today);
    if res.Success? {
      forall i | 0 <= i < |rooms| ensures Consistent(res.value[i]) {
        if IntToString(rooms[i].id) == a.roomId {
          WithOccupantConsistent(rooms[i], NewOccupant(a, today));
        }
      }
    }
  }

  // ---------------------------------------------------------------------
  // Views
  // ---------------------------------------------------------------------

  /** Some occupant's name or id contains the lower-cased term, ignoring case. */
  predicate OccupantMatches(occupants: seq<Occupant>, q: string) {
    exists i :: 0 <= i < |occupants| && (Includes(ToLower(occupants[i].name), q) || Includes(ToLower(occupants[i].id), q))
  }

  /**
   * The room search: the room number contains the term as typed, or the
   * type or some occupant's name or id contains it ignoring case.
   */
  predicate RoomMatches(r: Room, term: string) {
    var q := ToLower(term);
    Includes(IntToString(r.id), term) || Includes(ToLower(r.kind), q) || OccupantMatches(r.occupants, q)
  }

  function RoomMatcher(term: string): Room -> bool {
    (r: Room) => RoomMatches(r, term)
  }

  /** `filteredRooms` */
  function FilteredRooms(rooms: seq<Room>, term: string): (r: seq<Room>)
    ensures forall i :: 0 <= i < |r| ==> r[i] in rooms && RoomMatches(r[i], term)
    ensures forall i :: 0 <= i < |rooms| && RoomMatches(rooms[i], term) ==> rooms[i] in r
  {
    Filter(rooms, RoomMatcher(term))
  }

  /** An empty search lists every room. */
  lemma EmptySearchShowsAll(rooms: seq<Room>)
    ensures FilteredRooms(rooms, "") == rooms
  {
    forall i | 0 <= i < |rooms| ensures RoomMatches(rooms[i], "") {
      IncludesEmpty(IntToString(rooms[i].id));
    }
  }

  function IsOpen(r: Room): bool {
    r.status == Available || r.status == Partial
  }

  /** `availableRooms`: the rooms the allocation form offers. */
  function AvailableRooms(rooms: seq<Room>): (r: seq<Room>)
    ensures forall i :: 0 <= i < |r| ==> r[i] in rooms && (r[i].status == Available || r[i].status == Partial)
    ensures forall i :: 0 <= i < |rooms| && (rooms[i].status == Available || rooms[i].status == Partial) ==> rooms[i] in r
  {
    Filter(rooms, IsOpen)
  }

  /** In a consistent room, being offered by the form means having a free place. */
  lemma OfferedHasPlace(r: Room)
    requires Consistent(r)
    ensures IsOpen(r) <==> |r.occupants| < r.capacity
  {
  }

  /**
   * `Math.round(occupants / capacity * 100)`; `None` for a capacity of 0,
   * where the source computes Infinity or NaN.
   */
  function OccupancyPercent(r: Room): (p: Option<int>)
    ensures r.capacity == 0 <==> p.None?
    ensures p.Some? && r.capacity > 0 ==>
              2 * r.capacity * p.value - r.capacity <= 200 * |r.occupants| < 2 * r.capacity * p.value + r.capacity
    ensures p.Some? && 0 < r.capacity && |r.occupants| <= r.capacity ==> 0 <= p.value <= 100
  {
    if r.capacity == 0 then None
    else if r.capacity < 0 then Some(RoundDiv(-100 * |r.occupants|, -r.capacity))
    else
      assert |r.occupants| <= r.capacity ==> 0 <= Percent(|r.occupants|, r.capacity) <= 100 by {
        if |r.occupants| <= r.capacity { PercentBounds(|r.occupants|, r.capacity); }
      }
      Some(Percent(|r.occupants|, r.capacity))
  }

  // ---------------------------------------------------------------------
  // The page
  // ---------------------------------------------------------------------

  /** The page's state and its saved copy. */
  class RoomAllocationPage {
    var rooms: seq<Room>
    /** What the browser's storage holds under `hostelRooms`. */
    var saved: Option<seq<Room>>
    var form: Allocation
    var showForm: bool
    var searchTerm: string
    var expandedRoom: Option<int>

    predicate Saved()
      reads this
    {
      saved == Some(rooms)
    }

    constructor (stored: Option<seq<Room>>)
      ensures rooms == Initial(stored) && Saved()
      ensures form == BlankAllocation && !showForm && searchTerm == "" && expandedRoom == None
    {
      rooms := Initial(stored);
      saved := Some(Initial(stored));
      form := BlankAllocation;
      showForm := false;
      searchTerm := "";
      expandedRoom := None;
    }

    /** `toggleExpand(roomId)`: opens that room's details, or closes them when already open. */
    method ToggleExpand(roomId: int)
      modifies this
      ensures expandedRoom == if old(expandedRoom) == Some(roomId) then None else Some(roomId)
      ensures rooms == old(rooms) && saved == old(saved) && form == old(form)
      ensures showForm == old(showForm) && searchTerm == old(searchTerm)
    {
      expandedRoom := if expandedRoom == Some(roomId) then None else Some(roomId);
    }

    /**
     * Submitting the allocation form: an alert and no change while a
     * required field is empty; otherwise the room gains the student, the
     * form is reset and closed, and the rooms are saved.
     */
    method AllocateRoom(now: Instant) returns (alert: Option<string>)
      requires ValidInstant(now) && Saved()
      modifies this
      ensures var res := Allocated(old(rooms), old(form), Today(now));
              (res.Failure? ==> alert == Some(res.error) && rooms == old(rooms) && form == old(form) && showForm == old(showForm))
              && (res.Success? ==> alert == None && rooms == res.value && form == BlankAllocation && !showForm)
      ensures searchTerm == old(searchTerm) && expandedRoom == old(expandedRoom) && Saved()
    {
      var res := Allocated(rooms, form, Today(now));
      if res.Failure? {
        alert := Some(res.error);
      } else {
        alert := None;
        rooms := res.value;
        saved := Some(rooms);
        form := BlankAllocation;
        showForm := false;
      }
    }

    /** The deallocate button, with the answer to the confirmation dialog. */
    method Deallocate(roomId: int, studentId: string, confirmed: bool)
      requires Saved()
      modifies this
      ensures rooms == Deallocated(old(rooms), roomId, studentId, confirmed) && Saved()
      ensures form == old(form) && showForm == old(showForm) && searchTerm == old(searchTerm)
      ensures expandedRoom == old(expandedRoom)
    {
      if confirmed {
        rooms := Deallocated(rooms, roomId, studentId, confirmed);
        saved := Some(rooms);
      }
    }
  }
}
