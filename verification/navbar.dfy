/**
 * The navigation bar: the signed-in user, the notification and message
 * lists with their unread counts, the mobile title, and signing in with
 * Google or out.
 */
module Navbar {
  import opened Js
  import opened Store
  import opened Users

  /** A notification (no sender) or a message. */
  datatype Note = Note(id: int, sender: Option<string>, text: string, time: string, read: bool)

  const SeedNotifications := [
    Note(1, None, "New complaint submitted", "10 mins ago", false),
    Note(2, None, "Maintenance request approved", "2 hours ago", true),
    Note(3, None, "Visitor check-in for Room 205", "Yesterday", true)]

  const SeedMessages := [
    Note(1, Some("Warden"), "About the upcoming inspection...", "1 day ago", false),
    Note(2, Some("Admin"), "Monthly report is due tomorrow", "2 days ago", true)]

  /** `list.filter(n => !n.read).length` */
  function Unread(notes: seq<Note>): (n: nat)
    ensures n <= |notes|
    ensures n == 0 <==> forall i :: 0 <= i < |notes| ==> notes[i].read
  {
    if notes == [] then 0 else (if notes[0].read then 0 else 1) + Unread(notes[1..])
  }

  /** `list.map(n => n.id === id ? {...n, read: true} : n)` */
  function MarkRead(notes: seq<Note>, id: int): (r: seq<Note>)
    ensures |r| == |notes|
    ensures forall i :: 0 <= i < |notes| ==> r[i] == (if notes[i].id == id then notes[i].(read := true) else notes[i])
  {
    Update(notes, (n: Note) => n.id == id, (n: Note) => n.(read := true))
  }

  /** Marking the same item twice is marking it once. */
  lemma MarkReadTwice(notes: seq<Note>, id: int)
    ensures MarkRead(MarkRead(notes, id), id) == MarkRead(notes, id)
  {
  }

  /** The unread count drops by the number of unread items with the id, so it never goes up. */
  lemma {:induction false} MarkReadUnread(notes: seq<Note>, id: int)
    ensures Unread(MarkRead(notes, id)) == Unread(notes) - Count(notes, (n: Note) => n.id == id && !n.read)
    ensures Unread(MarkRead(notes, id)) <= Unread(notes)
  {
    if notes != [] {
      MarkReadUnread(notes[1..], id);
      assert MarkRead(notes, id)[1..] == MarkRead(notes[1..], id);
    }
  }

  /** One of the menu items: its label and path. */
  datatype MenuItem = MenuItem(text: string, path: string)

  const Menu := [
    MenuItem("Dashboard", "/dashboard"),
    MenuItem("Room Allocation", "/room-allocation"),
    MenuItem("Complaints", "/complaints"),
    MenuItem("Maintenance", "/maintenance"),
    MenuItem("Visitors", "/visitors"),
    MenuItem("Notices", "/notices")]

  /** `items.find(item => item.path === path)?.label` */
  function FindLabel(items: seq<MenuItem>, path: string): (r: Option<string>)
    ensures r.None? <==> forall i :: 0 <= i < |items| ==> items[i].path != path
    ensures r.Some? ==> exists i :: 0 <= i < |items| && items[i].path == path && items[i].text == r.value
                          && forall j :: 0 <= j < i ==> items[j].path != path
  {
    if items == [] then None
    else if items[0].path == path then Some(items[0].text)
    else
      var r := FindLabel(items[1..], path);
      assert r.Some? ==> exists i :: 0 < i < |items| && items[i].path == path && items[i].text == r.value
                          && forall j :: 0 <= j < i ==> items[j].path != path by {
        if r.Some? {
          var k :| 0 <= k < |items[1..]| && items[1..][k].path == path && items[1..][k].text == r.value
                   && forall j :: 0 <= j < k ==> items[1..][j].path != path;
          assert items[k + 1] == items[1..][k];
          assert forall j :: 1 <= j < k + 1 ==> items[j] == items[1..][j - 1];
        }
      }
      r
  }

  /** The mobile title: the label of the menu item for the current path, else 'Dashboard'. */
  function Title(path: string): (t: string)
    ensures forall i :: 0 <= i < |Menu| && Menu[i].path == path ==> t == Menu[i].text
    ensures (forall i :: 0 <= i < |Menu| ==> Menu[i].path != path) ==> t == "Dashboard"
  {
    var r := FindLabel(Menu, path);
    MenuPathsDistinct();
    if r.Some? then r.value else "Dashboard"
  }

  /** No two menu items share a path, so a path names at most one label. */
  lemma MenuPathsDistinct()
    ensures forall i, j :: 0 <= i < j < |Menu| ==> Menu[i].path != Menu[j].path
  {
  }

  /** The user shown: the stored session with `picture` falling back to `profileImage`, then null. */
  function Shown(stored: Obj): (u: Obj)
    ensures Truthy(Get(stored, "picture")) ==> Get(u, "picture") == Get(stored, "picture")
    ensures !Truthy(Get(stored, "picture")) && Truthy(Get(stored, "profileImage")) ==>
              Get(u, "picture") == Get(stored, "profileImage")
    ensures !Truthy(Get(stored, "picture")) && !Truthy(Get(stored, "profileImage")) ==> Get(u, "picture") == Some(JNull)
    ensures forall k :: k != "picture" ==> Get(u, k) == Get(stored, k)
  {
    stored["picture" := Or(Get(stored, "picture"), Or(Get(stored, "profileImage"), JNull))]
  }

  /** The session a Google sign-in from the bar writes: always with the role 'user'. */
  function GoogleSession(token: Token): (u: Obj)
    ensures Get(u, "role") == Some(JStr("user")) && "password" !in u
    ensures Text(u, "email") == token.email
  {
    map["name" := JStr(token.name), "email" := JStr(token.email), "picture" := JStr(token.picture), "role" := JStr("user")]
  }

  class NavbarState {
    var userData: Option<Obj>
    var notifications: seq<Note>
    var messages: seq<Note>
    /** What the browser's storage holds under `hostelCurrentUser`. */
    var session: Option<Obj>

    /** With a session the user and the sample lists load; without one everything stays empty. */
    constructor (sessionSlot: Option<Obj>)
      ensures session == sessionSlot
      ensures sessionSlot.Some? ==>
                (userData == Some(Shown(sessionSlot.value)) && notifications == SeedNotifications && messages == SeedMessages)
      ensures sessionSlot.None? ==> userData == None && notifications == [] && messages == []
    {
      session := sessionSlot;
      if sessionSlot.Some? {
        userData := Some(Shown(sessionSlot.value));
        notifications := SeedNotifications;
        messages := SeedMessages;
      } else {
        userData := None;
        notifications := [];
        messages := [];
      }
    }

    /** `markAsRead`: 'notification' marks in the notifications, anything else in the messages. */
    method MarkAsRead(kind: string, id: int)
      modifies this
      ensures kind == "notification" ==> notifications == MarkRead(old(notifications), id) && messages == old(messages)
      ensures kind != "notification" ==> messages == MarkRead(old(messages), id) && notifications == old(notifications)
      ensures Unread(notifications) <= Unread(old(notifications)) && Unread(messages) <= Unread(old(messages))
      ensures userData == old(userData) && session == old(session)
    {
      if kind == "notification" {
        MarkReadUnread(notifications, id);
        notifications := MarkRead(notifications, id);
      } else {
        MarkReadUnread(messages, id);
        messages := MarkRead(messages, id);
      }
    }

    /** Signing in with Google from the bar. */
    method GoogleSignIn(token: Token)
      modifies this
      ensures session == Some(GoogleSession(token)) && userData == session
      ensures notifications == old(notifications) && messages == old(messages)
    {
      session := Some(GoogleSession(token));
      userData := session;
    }

    /** `handleLogout`: the session and the shown user go. */
    method Logout()
      modifies this
      ensures session == None && userData == None
      ensures notifications == old(notifications) && messages == old(messages)
    {
      session := None;
      userData := None;
    }
  }
}
