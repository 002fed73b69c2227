/**
 * The profile page: the profile read from the session and the user
 * list, the effect that writes every change of the profile back to
 * both, the name and image checks, and linking a Google account.
 */
module Accounts {
  import opened Js
  import opened Store
  import opened Users

  // ---------------------------------------------------------------------
  // Loading
  // ---------------------------------------------------------------------

  /** The profile before anything is loaded. */
  const Blank: Obj := map["name" := JStr(""), "email" := JStr(""), "phone" := JStr(""), "address" := JStr(""),
                          "profileImage" := JNull, "role" := JStr("user")]

  /** Field `k` of `p` is `v` when that is truthy, and `fallback` otherwise (`v || fallback`). */
  predicate TakesOr(p: Obj, k: string, v: Option<Json>, fallback: Json) {
    (Truthy(v) ==> Get(p, k) == v) && (!Truthy(v) ==> Get(p, k) == Some(fallback))
  }

  /**
   * The profile shown for a user record: the text fields or '', the
   * Google picture, else the uploaded image, else null, and the role or
   * 'user'.
   */
  function ProfileOf(full: Obj): (p: Obj)
    ensures p.Keys == Blank.Keys
    ensures TakesOr(p, "name", Get(full, "name"), JStr("")) && TakesOr(p, "email", Get(full, "email"), JStr(""))
    ensures TakesOr(p, "phone", Get(full, "phone"), JStr("")) && TakesOr(p, "address", Get(full, "address"), JStr(""))
    ensures Truthy(Get(full, "picture")) ==> Get(p, "profileImage") == Get(full, "picture")
    ensures !Truthy(Get(full, "picture")) ==> TakesOr(p, "profileImage", Get(full, "profileImage"), JNull)
    ensures TakesOr(p, "role", Get(full, "role"), JStr("user"))
  {
    map["name" := Or(Get(full, "name"), JStr("")),
        "email" := Or(Get(full, "email"), JStr("")),
        "phone" := Or(Get(full, "phone"), JStr("")),
        "address" := Or(Get(full, "address"), JStr("")),
        "profileImage" := Or(Get(full, "picture"), Or(Get(full, "profileImage"), JNull)),
        "role" := Or(Get(full, "role"), JStr("user"))]
  }

  /** `users.find(u => u.email === email)`: exact comparison, letter case included. */
  function FindByEmail(users: seq<Obj>, email: Option<Json>): (r: Option<nat>)
    ensures r.Some? ==> r.value < |users| && Get(users[r.value], "email") == email
    ensures r.Some? ==> forall j :: 0 <= j < r.value ==> Get(users[j], "email") != email
    ensures r.None? <==> forall j :: 0 <= j < |users| ==> Get(users[j], "email") != email
  {
    if users == [] then None
    else if Get(users[0], "email") == email then Some(0)
    else
      var r := FindByEmail(users[1..], email);
      if r.None? then None else Some(r.value + 1)
  }

  /**
   * `loadUserData`: with a session, the profile of the list entry with
   * the session's e-mail, or of the session itself when the list has
   * none; without one, nothing is loaded.
   */
  function Load(session: Option<Obj>, users: seq<Obj>): (p: Option<Obj>)
    ensures session.None? <==> p.None?
    ensures session.Some? && FindByEmail(users, Get(session.value, "email")).Some? ==>
              p == Some(ProfileOf(users[FindByEmail(users, Get(session.value, "email")).value]))
    ensures session.Some? && FindByEmail(users, Get(session.value, "email")).None? ==>
              p == Some(ProfileOf(session.value))
  {
    match session
    case None => None
    case Some(s) =>
      match FindByEmail(users, Get(s, "email"))
      case Some(i) => Some(ProfileOf(users[i]))
      case None => Some(ProfileOf(s))
  }

  // ---------------------------------------------------------------------
  // Writing the profile back
  // ---------------------------------------------------------------------

  /** The fields the profile writes back to a stored record. */
  const Written := {"name", "phone", "address", "profileImage"}

  /**
   * `{...u, name, phone, address, profileImage}` from the profile, after
   * a JSON round trip: a field the profile lacks is dropped.
   */
  function Patch(u: Obj, profile: Obj): (r: Obj)
    ensures forall k :: k in Written ==> Get(r, k) == Get(profile, k)
    ensures forall k :: k !in Written ==> Get(r, k) == Get(u, k)
  {
    Assign(Assign(Assign(Assign(u, "name", Get(profile, "name")), "phone", Get(profile, "phone")),
           "address", Get(profile, "address")), "profileImage", Get(profile, "profileImage"))
  }

  /** Patching twice with the same profile is patching once. */
  lemma PatchTwice(u: Obj, profile: Obj)
    ensures Patch(Patch(u, profile), profile) == Patch(u, profile)
  {
    var once, twice := Patch(u, profile), Patch(Patch(u, profile), profile);
    assert forall k :: Get(twice, k) == Get(once, k);
    assert forall k :: k in twice <==> k in once;
  }

  /** The two storage slots the page reads and writes. */
  datatype Stored = Stored(session: Option<Obj>, users: seq<Obj>)

  /** Whether a record has the profile's e-mail. */
  function HasEmailOf(profile: Obj): Obj -> bool {
    u => Get(u, "email") == Get(profile, "email")
  }

  /**
   * The effect run after every change of the profile: with an e-mail in
   * the profile, the session is patched when it has that e-mail, and
   * so is every listed user with it; all else is left alone.
   */
  function Sync(profile: Obj, stored: Stored): (r: Stored)
    ensures !Truthy(Get(profile, "email")) ==> r == stored
    ensures Truthy(Get(profile, "email")) ==>
              r.session == (if stored.session.Some? && Get(stored.session.value, "email") == Get(profile, "email")
                            then Some(Patch(stored.session.value, profile)) else stored.session)
    ensures |r.users| == |stored.users|
    ensures forall i :: 0 <= i < |stored.users| ==>
              r.users[i] == (if Truthy(Get(profile, "email")) && Get(stored.users[i], "email") == Get(profile, "email")
                             then Patch(stored.users[i], profile) else stored.users[i])
  {
    if !Truthy(Get(profile, "email")) then stored
    else
      var current := if stored.session.Some? then stored.session.value else map[];
      var session := if Get(current, "email") == Get(profile, "email") then Some(Patch(current, profile)) else stored.session;
      Stored(session, Update(stored.users, HasEmailOf(profile), u => Patch(u, profile)))
  }

  /** Running the effect again with the same profile changes nothing more. */
  lemma SyncStable(profile: Obj, stored: Stored)
    ensures Sync(profile, Sync(profile, stored)) == Sync(profile, stored)
  {
    var once := Sync(profile, stored);
    var twice := Sync(profile, once);
    if Truthy(Get(profile, "email")) {
      forall i | 0 <= i < |stored.users| ensures twice.users[i] == once.users[i] {
        if Get(stored.users[i], "email") == Get(profile, "email") {
          PatchTwice(stored.users[i], profile);
        }
      }
      if stored.session.Some? && Get(stored.session.value, "email") == Get(profile, "email") {
        PatchTwice(stored.session.value, profile);
      }
    }
  }

  // ---------------------------------------------------------------------
  // Checks
  // ---------------------------------------------------------------------

  /**
   * `handleSubmit`: a name that trims to nothing is refused
   * (`BlankIffTrimEmpty` relates the two readings of blank).
   */
  function CheckName(name: string): (r: Option<string>)
    ensures r.Some? <==> IsBlank(name)
    ensures r.Some? ==> r.value == "Full name is required"
  {
    if IsBlank(name) then Some("Full name is required") else None
  }

  const MaxImageBytes := 2 * 1024 * 1024

  /**
   * `handleImageChange`'s checks: a type matching `image.*` (so one
   * containing "image"), then at most 2 MiB.
   */
  function CheckImage(kind: string, size: int): (r: Option<string>)
    ensures r.None? <==> Includes(kind, "image") && size <= MaxImageBytes
    ensures !Includes(kind, "image") ==> r == Some("Please select a valid image file (JPEG, PNG)")
    ensures Includes(kind, "image") && size > MaxImageBytes ==> r == Some("Image size should be less than 2MB")
  {
    if !Includes(kind, "image") then Some("Please select a valid image file (JPEG, PNG)")
    else if size > 2 * 1024 * 1024 then Some("Image size should be less than 2MB")
    else None
  }

  /** The profile once an image is read: the upload replaces the image and the Google picture goes. */
  function WithImage(profile: Obj, dataUrl: string): (p: Obj)
    ensures Get(p, "profileImage") == Some(JStr(dataUrl)) && Get(p, "picture") == None
    ensures forall k :: k != "profileImage" && k != "picture" ==> Get(p, k) == Get(profile, k)
  {
    Assign(Assign(profile, "profileImage", Some(JStr(dataUrl))), "picture", None)
  }

  // ---------------------------------------------------------------------
  // Linking a Google account
  // ---------------------------------------------------------------------

  /** What linking writes: the new profile and both storage slots, before the effect runs. */
  datatype Linked = Linked(profile: Obj, stored: Stored)

  /** The listed users with the credential's e-mail take its picture. */
  function WithPicture(users: seq<Obj>, token: Token): (r: seq<Obj>)
    ensures |r| == |users|
    ensures forall i :: 0 <= i < |users| ==>
              r[i] == (if Get(users[i], "email") == Some(JStr(token.email)) then users[i]["picture" := JStr(token.picture)] else users[i])
  {
    Update(users, u => Get(u, "email") == Some(JStr(token.email)), u => u["picture" := JStr(token.picture)])
  }

  /**
   * `handleGoogleLoginSuccess` as written: the profile becomes the
   * credential's name, e-mail and picture with the old role, and
   * nothing else.
   */
  function LinkGoogleAsWritten(profile: Obj, token: Token, users: seq<Obj>): (r: Linked)
    ensures r.profile.Keys == {"name", "email", "picture", "role"}
    ensures Get(r.profile, "role") == Some(Or(Get(profile, "role"), JStr("user")))
    ensures r.stored.session == Some(r.profile)
  {
    var user := map["name" := JStr(token.name), "email" := JStr(token.email), "picture" := JStr(token.picture),
                    "role" := Or(Get(profile, "role"), JStr("user"))];
    Linked(user, Stored(Some(user), WithPicture(users, token)))
  }

  /**
   * The effect that follows the link writes the new profile's missing
   * phone and address back as missing: a warden with a phone and an
   * address who links Google loses both from the user list.
   */
  lemma LinkGoogleErasesPhone()
    ensures var u := map["name" := JStr("Asha"), "email" := JStr("asha@hostel.com"), "phone" := JStr("555-0100"),
                         "address" := JStr("Block A"), "role" := JStr("warden")];
            var linked := LinkGoogleAsWritten(ProfileOf(u), Token("Asha", "asha@hostel.com", "pic"), [u]);
            var after := Sync(linked.profile, linked.stored);
            Get(after.users[0], "phone") == None && Get(after.users[0], "address") == None
  {
    var u := map["name" := JStr("Asha"), "email" := JStr("asha@hostel.com"), "phone" := JStr("555-0100"),
                 "address" := JStr("Block A"), "role" := JStr("warden")];
    var linked := LinkGoogleAsWritten(ProfileOf(u), Token("Asha", "asha@hostel.com", "pic"), [u]);
    assert Get(linked.stored.users[0], "email") == Get(linked.profile, "email");
  }

  /**
   * Linking as evidently intended: the credential's name, e-mail and
   * picture go over the profile, which keeps its role, phone, address
   * and image.
   */
  function LinkGoogle(profile: Obj, token: Token, users: seq<Obj>): (r: Linked)
    ensures Get(r.profile, "name") == Some(JStr(token.name)) && Get(r.profile, "email") == Some(JStr(token.email))
    ensures Get(r.profile, "picture") == Some(JStr(token.picture))
    ensures Get(r.profile, "role") == Some(Or(Get(profile, "role"), JStr("user")))
    ensures forall k :: k !in {"name", "email", "picture", "role"} ==> Get(r.profile, k) == Get(profile, k)
    ensures r.stored.session == Some(r.profile)
    ensures r.stored.users == WithPicture(users, token)
  {
    var user := profile["name" := JStr(token.name)]["email" := JStr(token.email)]["picture" := JStr(token.picture)]
                       ["role" := Or(Get(profile, "role"), JStr("user"))];
    Linked(user, Stored(Some(user), WithPicture(users, token)))
  }

  /** After the intended link and the effect, every listed user keeps its phone and address. */
  lemma LinkGoogleKeepsPhone(profile: Obj, token: Token, users: seq<Obj>, i: nat)
    requires i < |users| && Get(users[i], "email") == Some(JStr(token.email))
    requires Get(profile, "phone") == Get(users[i], "phone") && Get(profile, "address") == Get(users[i], "address")
    ensures var linked := LinkGoogle(profile, token, users);
            var after := Sync(linked.profile, linked.stored);
            Get(after.users[i], "phone") == Get(users[i], "phone")
            && Get(after.users[i], "address") == Get(users[i], "address")
            && Get(after.users[i], "picture") == Some(JStr(token.picture))
  {
    var linked := LinkGoogle(profile, token, users);
    assert Get(linked.stored.users[i], "email") == Get(linked.profile, "email");
  }

  // ---------------------------------------------------------------------
  // The page
  // ---------------------------------------------------------------------

  const SavedMessage := "Profile updated successfully!"
  const LinkedMessage := "Google account linked successfully!"

  class AccountsPage {
    /** `userData` */
    var profile: Obj
    var isEditing: bool
    var error: string
    var success: string
    /** The `hostelCurrentUser` and `hostelUsers` storage slots. */
    var stored: Stored

    /** Loads the profile, after which the effect writes it back once. */
    constructor (slots: Stored)
      ensures profile == (if Load(slots.session, slots.users).Some? then Load(slots.session, slots.users).value else Blank)
      ensures stored == Sync(profile, slots)
      ensures !isEditing && error == "" && success == ""
    {
      var loaded := Load(slots.session, slots.users);
      var p := if loaded.Some? then loaded.value else Blank;
      profile := p;
      stored := Sync(p, slots);
      isEditing := false;
      error := "";
      success := "";
    }

    /** `handleChange` for a text field, followed by the effect. */
    method Change(key: string, value: string)
      modifies this
      ensures profile == old(profile)[key := JStr(value)]
      ensures stored == Sync(profile, old(stored))
      ensures isEditing == old(isEditing) && error == old(error) && success == old(success)
    {
      profile := profile[key := JStr(value)];
      stored := Sync(profile, stored);
    }

    /** `handleSubmit`: a blank name keeps the form open with its message. */
    method Submit()
      modifies this
      ensures var name := Text(old(profile), "name");
              (IsBlank(name) ==> error == "Full name is required" && success == "" && isEditing == old(isEditing))
              && (!IsBlank(name) ==> error == "" && success == SavedMessage && !isEditing)
      ensures profile == old(profile) && stored == old(stored)
    {
      error := "";
      success := "";
      var problem := CheckName(Text(profile, "name"));
      if problem.Some? {
        error := problem.value;
        return;
      }
      success := SavedMessage;
      isEditing := false;
    }

    /** `handleImageChange` with the file's type, size and contents read as a data URL. */
    method ChangeImage(kind: string, size: int, dataUrl: string)
      modifies this
      ensures CheckImage(kind, size).Some? ==> error == CheckImage(kind, size).value && profile == old(profile) && stored == old(stored)
      ensures CheckImage(kind, size).None? ==>
                error == "" && profile == WithImage(old(profile), dataUrl) && stored == Sync(profile, old(stored))
      ensures isEditing == old(isEditing) && success == old(success)
    {
      var problem := CheckImage(kind, size);
      if problem.Some? {
        error := problem.value;
        return;
      }
      profile := WithImage(profile, dataUrl);
      stored := Sync(profile, stored);
      error := "";
    }

    /** `handleCancel`: the profile is read back from the session alone. */
    method Cancel()
      modifies this
      ensures old(stored).session.Some? ==> profile == ProfileOf(old(stored).session.value) && stored == Sync(profile, old(stored))
      ensures old(stored).session.None? ==> profile == old(profile) && stored == old(stored)
      ensures !isEditing && error == "" && success == old(success)
    {
      if stored.session.Some? {
        profile := ProfileOf(stored.session.value);
        stored := Sync(profile, stored);
      }
      isEditing := false;
      error := "";
    }

    /** Linking a Google account, followed by the effect. */
    method HandleGoogleLink(token: Token)
      modifies this
      ensures var linked := LinkGoogle(old(profile), token, old(stored).users);
              profile == linked.profile && stored == Sync(linked.profile, linked.stored)
      ensures success == LinkedMessage
      ensures isEditing == old(isEditing) && error == old(error)
    {
      var linked := LinkGoogle(profile, token, stored.users);
      profile := linked.profile;
      stored := Sync(linked.profile, linked.stored);
      success := LinkedMessage;
    }

    /** `handleLogout`: the session goes. */
    method Logout()
      modifies this
      ensures stored == old(stored).(session := None)
      ensures profile == old(profile) && isEditing == old(isEditing) && error == old(error) && success == old(success)
    {
      stored := stored.(session := None);
    }
  }
}
