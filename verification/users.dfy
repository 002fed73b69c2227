/**
 * User records as the sign-up, sign-in and profile pages keep them: the
 * `hostelUsers` list and the `hostelCurrentUser` session copy are JSON
 * objects, so fields are added with a spread and dropped with `delete`.
 */
module Users {
  import opened Js

  /** A text field of a record, '' when it is missing or not text. */
  function Text(u: Obj, key: string): (s: string)
    ensures Get(u, key) == Some(JStr(s)) || s == ""
    ensures Get(u, key) == Some(JStr(s)) || Get(u, key) == None || !Get(u, key).value.JStr?
  {
    match Get(u, key)
    case Some(JStr(s)) => s
    case _ => ""
  }

  /** `a.toLowerCase() === b.toLowerCase()`, compared a character at a time. */
  predicate EqualFold(a: string, b: string) {
    if a == [] then b == []
    else b != [] && LowerChar(a[0]) == LowerChar(b[0]) && EqualFold(a[1..], b[1..])
  }

  lemma {:induction false} EqualFoldIff(a: string, b: string)
    ensures EqualFold(a, b) <==> ToLower(a) == ToLower(b)
  {
    if a != [] && b != [] {
      EqualFoldIff(a[1..], b[1..]);
      assert ToLower(a) == [LowerChar(a[0])] + ToLower(a[1..]);
      assert ToLower(b) == [LowerChar(b[0])] + ToLower(b[1..]);
    }
  }

  /** `u.email.toLowerCase() === email.toLowerCase()` */
  predicate SameEmail(u: Obj, email: string) {
    EqualFold(Text(u, "email"), email)
  }

  /** `users.some(u => u.email.toLowerCase() === email.toLowerCase())` */
  function EmailTaken(users: seq<Obj>, email: string): (b: bool)
    ensures b <==> exists i :: 0 <= i < |users| && SameEmail(users[i], email)
  {
    if users == [] then false
    else SameEmail(users[0], email) || EmailTaken(users[1..], email)
  }

  /** Telling the case of the letters apart makes no difference to the lookup. */
  lemma EmailTakenIgnoresCase(users: seq<Obj>, a: string, b: string)
    requires ToLower(a) == ToLower(b)
    ensures EmailTaken(users, a) == EmailTaken(users, b)
  {
    EqualFoldIff(a, b);
    forall u | u in users ensures SameEmail(u, a) == SameEmail(u, b) {
      EqualFoldIff(Text(u, "email"), a);
      EqualFoldIff(Text(u, "email"), b);
    }
  }

  /** The fields a Google credential decodes to. */
  datatype Token = Token(name: string, email: string, picture: string)

  /** The roles a user can pick on the sign-up and sign-in forms. */
  const Roles := ["admin", "warden", "guard"]
}
