/**
 * The sign-in page: the form checks, the lookup by e-mail and role, the
 * password check, the remembered sign-in and the session copy of the
 * user, by form or by Google credential.
 */
module Login {
  import opened Js
  import opened Users
  import Register

  /** `validateForm`: both fields filled in, then the e-mail shape. */
  function Validate(email: string, password: string): (r: Option<string>)
    ensures r.None? <==> email != "" && password != "" && IsEmail(email)
    ensures email == "" || password == "" ==> r == Some("Please fill in all fields")
    ensures email != "" && password != "" && !IsEmail(email) ==> r == Some("Please enter a valid email address")
  {
    if email == "" || password == "" then Some("Please fill in all fields")
    else if !CheckEmail(email) then Some("Please enter a valid email address")
    else None
  }

  /** A user the sign-in accepts for an e-mail and a role. */
  predicate Matches(u: Obj, email: string, role: string) {
    SameEmail(u, email) && Get(u, "role") == Some(JStr(role))
  }

  /** `users.find(...)`: the first user with the e-mail, in any letter case, and the role. */
  function FindUser(users: seq<Obj>, email: string, role: string): (r: Option<nat>)
    ensures r.Some? ==> r.value < |users| && Matches(users[r.value], email, role)
    ensures r.Some? ==> forall j :: 0 <= j < r.value ==> !Matches(users[j], email, role)
    ensures r.None? <==> forall j :: 0 <= j < |users| ==> !Matches(users[j], email, role)
  {
    if users == [] then None
    else if Matches(users[0], email, role) then Some(0)
    else
      var r := FindUser(users[1..], email, role);
      if r.None? then None else Some(r.value + 1)
  }

  /** The session copy of a user: every field but the password. */
  function SessionCopy(u: Obj): (s: Obj)
    ensures "password" !in s
    ensures forall k :: k != "password" ==> Get(s, k) == Get(u, k)
  {
    u - {"password"}
  }

  /** What a successful sign-in writes: the session user, and the remembered sign-in or none. */
  datatype Outcome = Outcome(session: Obj, remembered: Option<Obj>)

  /** The remembered sign-in: e-mail, password and role. */
  function Remembered(email: string, password: string, role: string): Obj {
    map["email" := JStr(email), "password" := JStr(password), "role" := JStr(role)]
  }

  /**
   * `handleLogin`: the form checks, then a user with the e-mail and the
   * role, then the password; on success the user without its password
   * becomes the session, and the sign-in is remembered exactly when
   * asked to be.
   */
  function SignIn(users: seq<Obj>, email: string, password: string, role: string, rememberMe: bool): (r: Result<Outcome>)
    ensures Validate(email, password).Some? ==> r == Failure(Validate(email, password).value)
    ensures Validate(email, password).None? && FindUser(users, email, role).None? ==>
              r == Failure("No " + role + " account found with this email")
    ensures Validate(email, password).None? && FindUser(users, email, role).Some? ==>
              var u := users[FindUser(users, email, role).value];
              (Get(u, "password") != Some(JStr(password)) ==> r == Failure("Incorrect password"))
              && (Get(u, "password") == Some(JStr(password)) ==> r.Success? && r.value.session == SessionCopy(u))
    ensures r.Success? ==> "password" !in r.value.session
    ensures r.Success? && rememberMe ==> r.value.remembered == Some(Remembered(email, password, role))
    ensures r.Success? && !rememberMe ==> r.value.remembered == None
  {
    match Validate(email, password)
    case Some(message) => Failure(message)
    case None =>
      match FindUser(users, email, role)
      case None => Failure("No " + role + " account found with this email")
      case Some(i) =>
        if Get(users[i], "password") != Some(JStr(password)) then Failure("Incorrect password")
        else Success(Outcome(SessionCopy(users[i]), if rememberMe then Some(Remembered(email, password, role)) else None))
  }

  /**
   * `handleGoogleLoginSuccess`: the same lookup on the credential's
   * e-mail; the session takes the credential's name and picture.
   */
  function GoogleSignIn(users: seq<Obj>, token: Token, role: string): (r: Result<Obj>)
    ensures FindUser(users, token.email, role).None? <==> r.Failure?
    ensures r.Failure? ==> r.error == "No " + role + " account found with this Google email"
    ensures r.Success? ==> "password" !in r.value
    ensures r.Success? ==> Get(r.value, "name") == Some(JStr(token.name)) && Get(r.value, "picture") == Some(JStr(token.picture))
    ensures r.Success? ==> forall k :: k !in {"password", "name", "picture"} ==>
              Get(r.value, k) == Get(users[FindUser(users, token.email, role).value], k)
  {
    match FindUser(users, token.email, role)
    case None => Failure("No " + role + " account found with this Google email")
    case Some(i) => Success(SessionCopy(users[i]["name" := JStr(token.name)]["picture" := JStr(token.picture)]))
  }

  /** Someone who has just signed up can sign in with the same e-mail, password and role. */
  lemma SignUpThenSignIn(users: seq<Obj>, id: string, name: string, email: string, password: string,
                         role: string, createdAt: string, rememberMe: bool)
    requires Register.Validate(name, email, password, password).None?
    requires Register.RegisterUser(users, id, name, email, password, role, createdAt).Success?
    ensures var after := Register.RegisterUser(users, id, name, email, password, role, createdAt).value;
            SignIn(after, email, password, role, rememberMe).Success?
            && SignIn(after, email, password, role, rememberMe).value.session
               == Register.NewUser(id, name, email, password, role, createdAt) - {"password"}
  {
    var after := Register.RegisterUser(users, id, name, email, password, role, createdAt).value;
    var u := Register.NewUser(id, name, email, password, role, createdAt);
    assert after[|users|] == u;
    EqualFoldIff(email, email);
    assert Matches(u, email, role);
    FindUserAt(after, email, role, |users|);
  }

  /** A match with no match before it is the one `find` returns. */
  lemma FindUserAt(users: seq<Obj>, email: string, role: string, i: nat)
    requires i < |users| && Matches(users[i], email, role)
    requires forall j :: 0 <= j < i ==> !Matches(users[j], email, role)
    ensures FindUser(users, email, role) == Some(i)
  {
    var r := FindUser(users, email, role);
    assert r.Some?;
  }

  /** An account made with Google has no password, so the password form never lets it in. */
  lemma GoogleAccountNeedsGoogle(users: seq<Obj>, id: string, token: Token, role: string, createdAt: string,
                                 password: string, rememberMe: bool)
    requires Register.RegisterGoogleUser(users, id, token, role, createdAt).Success?
    requires Validate(token.email, password).None?
    ensures var after := Register.RegisterGoogleUser(users, id, token, role, createdAt).value;
            SignIn(after, token.email, password, role, rememberMe) == Failure("Incorrect password")
  {
    var after := Register.RegisterGoogleUser(users, id, token, role, createdAt).value;
    var u := Register.GoogleUser(id, token, role, createdAt);
    assert after[|users|] == u;
    EqualFoldIff(token.email, token.email);
    assert Matches(u, token.email, role);
    FindUserAt(after, token.email, role, |users|);
  }

  /** The form as a remembered sign-in fills it: e-mail, password and role, with remember-me ticked. */
  datatype Form = Form(email: string, password: string, role: string, rememberMe: bool)

  /** Text field `key`, or `fallback` when it is missing or empty (`x || fallback`). */
  function TextOr(o: Obj, key: string, fallback: string): (s: string)
    ensures Text(o, key) != "" ==> s == Text(o, key)
    ensures Text(o, key) == "" ==> s == fallback
  {
    if Text(o, key) != "" then Text(o, key) else fallback
  }

  /** The sign-in form on arrival. */
  function Prefill(remembered: Option<Obj>): (f: Form)
    ensures remembered.None? ==> f == Form("", "", "admin", false)
    ensures remembered.Some? ==> f.rememberMe && f.email == Text(remembered.value, "email")
                                  && f.password == Text(remembered.value, "password")
                                  && f.role == TextOr(remembered.value, "role", "admin")
  {
    match remembered
    case None => Form("", "", "admin", false)
    case Some(o) => Form(Text(o, "email"), Text(o, "password"), TextOr(o, "role", "admin"), true)
  }

  /** A remembered sign-in fills the form back exactly as it was sent. */
  lemma PrefillRoundTrip(email: string, password: string, role: string)
    requires role != ""
    ensures Prefill(Some(Remembered(email, password, role))) == Form(email, password, role, true)
  {
  }

  class LoginPage {
    var email: string
    var password: string
    var rememberMe: bool
    var activeRole: string
    var error: string
    /** The users read from `hostelUsers` on arrival. */
    var users: seq<Obj>
    /** What the browser's storage holds under `hostelCurrentUser`. */
    var session: Option<Obj>
    /** What the browser's storage holds under `hostelRememberedUser`. */
    var remembered: Option<Obj>

    constructor (rememberedSlot: Option<Obj>, storedUsers: seq<Obj>, sessionSlot: Option<Obj>)
      ensures Form(email, password, activeRole, rememberMe) == Prefill(rememberedSlot)
      ensures users == storedUsers && error == "" && session == sessionSlot && remembered == rememberedSlot
    {
      var f := Prefill(rememberedSlot);
      email, password, activeRole, rememberMe := f.email, f.password, f.role, f.rememberMe;
      users := storedUsers;
      error := "";
      session := sessionSlot;
      remembered := rememberedSlot;
    }

    /** `handleLogin`: a failure shows its message and writes nothing. */
    method HandleLogin()
      modifies this
      ensures var r := SignIn(old(users), old(email), old(password), old(activeRole), old(rememberMe));
              (r.Failure? ==> error == r.error && session == old(session) && remembered == old(remembered))
              && (r.Success? ==> error == "" && session == Some(r.value.session) && remembered == r.value.remembered)
      ensures email == old(email) && password == old(password) && activeRole == old(activeRole)
      ensures rememberMe == old(rememberMe) && users == old(users)
    {
      error := "";
      var r := SignIn(users, email, password, activeRole, rememberMe);
      if r.Failure? {
        error := r.error;
        return;
      }
      remembered := r.value.remembered;
      session := Some(r.value.session);
    }

    /** `handleGoogleLoginSuccess`, given the decoded credential. */
    method HandleGoogleLogin(token: Token)
      modifies this
      ensures var r := GoogleSignIn(old(users), token, old(activeRole));
              (r.Failure? ==> error == r.error && session == old(session))
              && (r.Success? ==> error == old(error) && session == Some(r.value))
      ensures remembered == old(remembered)
      ensures email == old(email) && password == old(password) && activeRole == old(activeRole)
      ensures rememberMe == old(rememberMe) && users == old(users)
    {
      var r := GoogleSignIn(users, token, activeRole);
      if r.Failure? {
        error := r.error;
        return;
      }
      session := Some(r.value);
    }
  }
}
