/**
 * The sign-up page: the password strength meter, the form checks, and
 * the append to the stored user list, by form or by Google credential.
 */
module Register {
  import opened Js
  import opened Users

  // ---------------------------------------------------------------------
  // Password strength
  // ---------------------------------------------------------------------

  /** `/[...]/.test(s)` for a one-class pattern: some character of `s` is in the class. */
  function AnyChar(s: string, p: char -> bool): (b: bool)
    ensures b <==> exists i :: 0 <= i < |s| && p(s[i])
  {
    if s == [] then false else p(s[0]) || AnyChar(s[1..], p)
  }

  predicate IsSymbol(c: char) {
    c in "!@#$%^&*"
  }

  predicate IsUpper(c: char) {
    'A' <= c <= 'Z'
  }

  function Point(b: bool): nat {
    if b then 1 else 0
  }

  /**
   * The strength score: 0 for an empty password, otherwise a point each
   * for a `length` of eight or more (UTF-16 code units), a digit, one of
   * `!@#$%^&*`, and an upper-case letter.
   */
  function Strength(pass: string): nat {
    if pass == "" then 0
    else Point(Utf16Length(pass) >= 8) + Point(AnyChar(pass, IsDigit)) + Point(AnyChar(pass, IsSymbol)) + Point(AnyChar(pass, IsUpper))
  }

  /** `getStrength`, adding up the points one test at a time. */
  method GetStrength(pass: string) returns (score: nat)
    ensures score == Strength(pass)
    ensures score <= 4
    ensures pass != "" && score == 4 <==> Utf16Length(pass) >= 8 && AnyChar(pass, IsDigit) && AnyChar(pass, IsSymbol) && AnyChar(pass, IsUpper)
  {
    if pass == "" {
      return 0;
    }
    score := 0;
    if Utf16Length(pass) >= 8 {
      score := score + 1;
    }
    if AnyChar(pass, IsDigit) {
      score := score + 1;
    }
    if AnyChar(pass, IsSymbol) {
      score := score + 1;
    }
    if AnyChar(pass, IsUpper) {
      score := score + 1;
    }
  }

  /** Typing one more character never weakens a password. */
  lemma StrengthGrows(pass: string, c: char)
    ensures Strength(pass + [c]) >= Strength(pass)
  {
    var longer := pass + [c];
    Utf16LengthAppend(pass, [c]);
    forall p: char -> bool | AnyChar(pass, p) ensures AnyChar(longer, p) {
      var i :| 0 <= i < |pass| && p(pass[i]);
      assert longer[i] == pass[i];
    }
  }

  /**
   * Four emoji above U+FFFF are eight UTF-16 code units: such a password
   * earns the length point although it has only four characters.
   */
  lemma AstralPasswordIsLong()
    ensures Utf16Length("\U{1F600}\U{1F600}\U{1F600}\U{1F600}") == 8
    ensures Strength("\U{1F600}\U{1F600}\U{1F600}\U{1F600}") == 1
  {
    var p := "\U{1F600}\U{1F600}\U{1F600}\U{1F600}";
    assert p[1..][1..][1..][1..] == [];
    assert !AnyChar(p, IsDigit) && !AnyChar(p, IsSymbol) && !AnyChar(p, IsUpper);
  }

  /** What the meter shows for a score: its label, its colour and the width of the bar in percent. */
  datatype Meter = Meter(text: string, color: string, width: int)

  function MeterFor(score: nat): (m: Meter)
    requires score <= 4
    ensures m.text == "Strong" <==> score >= 3
    ensures m.text == "Medium" <==> score == 2
    ensures m.text == "Weak" <==> score < 2
    ensures 4 * m.width == 100 * score && 0 <= m.width <= 100
  {
    var width := score * 25;
    if score >= 3 then Meter("Strong", "bg-green-500", width)
    else if score >= 2 then Meter("Medium", "bg-yellow-500", width)
    else Meter("Weak", "bg-red-500", width)
  }

  /** A password with every kind of character and at least eight of them is Strong; an empty one is Weak. */
  lemma MeterExtremes(pass: string)
    ensures pass == "" ==> MeterFor(Strength(pass)).text == "Weak" && MeterFor(Strength(pass)).width == 0
    ensures Utf16Length(pass) >= 8 && AnyChar(pass, IsDigit) && AnyChar(pass, IsSymbol) && AnyChar(pass, IsUpper) ==>
              MeterFor(Strength(pass)) == Meter("Strong", "bg-green-500", 100)
  {
  }

  // ---------------------------------------------------------------------
  // The form
  // ---------------------------------------------------------------------

  /** `validateForm`: the first failed check's message, or none. */
  function Validate(name: string, email: string, password: string, confirm: string): (r: Option<string>)
    ensures r.None? <==> name != "" && email != "" && password != "" && confirm != ""
                         && IsEmail(email) && Utf16Length(password) >= 8 && password == confirm
    ensures (name == "" || email == "" || password == "" || confirm == "") ==> r == Some("Please fill in all fields")
    ensures name != "" && email != "" && password != "" && confirm != "" && !IsEmail(email) ==>
              r == Some("Please enter a valid email address")
    ensures name != "" && email != "" && password != "" && confirm != "" && IsEmail(email) && Utf16Length(password) < 8 ==>
              r == Some("Password must be at least 8 characters")
    ensures (name != "" && email != "" && password != "" && confirm != "" && IsEmail(email) && Utf16Length(password) >= 8
             && password != confirm) ==> r == Some("Passwords do not match")
  {
    if name == "" || email == "" || password == "" || confirm == "" then Some("Please fill in all fields")
    else if !CheckEmail(email) then Some("Please enter a valid email address")
    else if Utf16Length(password) < 8 then Some("Password must be at least 8 characters")
    else if password != confirm then Some("Passwords do not match")
    else None
  }

  /** The four-emoji password passes the eight-character check, as it does on the page. */
  lemma AstralPasswordAccepted(name: string, email: string)
    ensures Validate(name, email, "\U{1F600}\U{1F600}\U{1F600}\U{1F600}", "\U{1F600}\U{1F600}\U{1F600}\U{1F600}")
            != Some("Password must be at least 8 characters")
  {
    AstralPasswordIsLong();
  }

  /** The record a form sign-up stores; `id` and `createdAt` come from the clock. */
  function NewUser(id: string, name: string, email: string, password: string, role: string, createdAt: string): Obj {
    map["id" := JStr(id), "name" := JStr(name), "email" := JStr(email), "password" := JStr(password),
        "role" := JStr(role), "createdAt" := JStr(createdAt)]
  }

  /**
   * The sign-up itself once the form is valid: refused when the e-mail
   * is taken in any letter case, otherwise one user appended at the end.
   */
  function SignUp(users: seq<Obj>, user: Obj, email: string, taken: string): (r: Result<seq<Obj>>)
    ensures r.Failure? <==> EmailTaken(users, email)
    ensures r.Failure? ==> r.error == taken
    ensures r.Success? ==> |r.value| == |users| + 1 && r.value[..|users|] == users && r.value[|users|] == user
  {
    if EmailTaken(users, email) then Failure(taken) else Success(users + [user])
  }

  /** Once a sign-up has gone through, the same e-mail in any letter case is taken. */
  lemma SignUpTakesEmail(users: seq<Obj>, user: Obj, email: string, taken: string, again: string)
    requires SignUp(users, user, email, taken).Success? && Text(user, "email") == email
    requires ToLower(again) == ToLower(email)
    ensures SignUp(users, user, email, taken).value != users
    ensures SignUp(SignUp(users, user, email, taken).value, user, again, taken).Failure?
  {
    var after := SignUp(users, user, email, taken).value;
    EqualFoldIff(email, again);
    assert SameEmail(after[|users|], again);
  }

  /** `handleRegister` after the checks. */
  function RegisterUser(users: seq<Obj>, id: string, name: string, email: string, password: string, role: string, createdAt: string): (r: Result<seq<Obj>>)
    ensures r.Failure? <==> EmailTaken(users, email)
    ensures r.Failure? ==> r.error == "An account with this email already exists"
    ensures r.Success? ==> r.value == users + [NewUser(id, name, email, password, role, createdAt)]
  {
    SignUp(users, NewUser(id, name, email, password, role, createdAt), email, "An account with this email already exists")
  }

  /** The record a Google sign-up stores: no password, and marked as a Google account. */
  function GoogleUser(id: string, token: Token, role: string, createdAt: string): (u: Obj)
    ensures "password" !in u && Get(u, "isGoogleAuth") == Some(JBool(true))
    ensures Text(u, "email") == token.email && Get(u, "role") == Some(JStr(role))
  {
    map["id" := JStr(id), "name" := JStr(token.name), "email" := JStr(token.email), "picture" := JStr(token.picture),
        "role" := JStr(role), "createdAt" := JStr(createdAt), "isGoogleAuth" := JBool(true)]
  }

  /** `handleGoogleRegister`: the same duplicate check on the credential's e-mail. */
  function RegisterGoogleUser(users: seq<Obj>, id: string, token: Token, role: string, createdAt: string): (r: Result<seq<Obj>>)
    ensures r.Failure? <==> EmailTaken(users, token.email)
    ensures r.Failure? ==> r.error == "An account with this Google email already exists"
    ensures r.Success? ==> r.value == users + [GoogleUser(id, token, role, createdAt)]
  {
    SignUp(users, GoogleUser(id, token, role, createdAt), token.email, "An account with this Google email already exists")
  }

  // ---------------------------------------------------------------------
  // The page
  // ---------------------------------------------------------------------

  class RegisterPage {
    var name: string
    var email: string
    var password: string
    var confirmPassword: string
    var error: string
    var success: string
    var activeRole: string
    /** What the browser's storage holds under `hostelUsers`. */
    var users: seq<Obj>

    constructor (storedUsers: seq<Obj>)
      ensures name == "" && email == "" && password == "" && confirmPassword == ""
      ensures error == "" && success == "" && activeRole == "warden" && users == storedUsers
    {
      name, email, password, confirmPassword := "", "", "", "";
      error, success := "", "";
      activeRole := "warden";
      users := storedUsers;
    }

    /** The role tabs above the form. */
    method SelectRole(role: string)
      requires role in Roles
      modifies this
      ensures activeRole == role
      ensures name == old(name) && email == old(email) && password == old(password) && confirmPassword == old(confirmPassword)
      ensures error == old(error) && success == old(success) && users == old(users)
    {
      activeRole := role;
    }

    /**
     * `handleRegister`, given the new record's id and creation time: a
     * failed check or a taken e-mail shows its message and stores
     * nothing; otherwise the user is appended with the selected role.
     */
    method HandleRegister(id: string, createdAt: string)
      modifies this
      ensures Validate(old(name), old(email), old(password), old(confirmPassword)).Some? ==>
                error == Validate(old(name), old(email), old(password), old(confirmPassword)).value
                && users == old(users) && success == old(success)
      ensures Validate(old(name), old(email), old(password), old(confirmPassword)).None? ==>
                var r := RegisterUser(old(users), id, old(name), old(email), old(password), old(activeRole), createdAt);
                (r.Failure? ==> error == r.error && users == old(users) && success == old(success))
                && (r.Success? ==> error == "" && users == r.value && success == "Account created successfully! Redirecting...")
      ensures name == old(name) && email == old(email) && password == old(password) && confirmPassword == old(confirmPassword)
      ensures activeRole == old(activeRole)
    {
      error := "";
      var invalid := Validate(name, email, password, confirmPassword);
      if invalid.Some? {
        error := invalid.value;
        return;
      }
      var r := RegisterUser(users, id, name, email, password, activeRole, createdAt);
      if r.Failure? {
        error := r.error;
        return;
      }
      users := r.value;
      success := "Account created successfully! Redirecting...";
    }

    /** `handleGoogleRegister`, given the decoded credential; the earlier error is not cleared. */
    method HandleGoogleRegister(token: Token, id: string, createdAt: string)
      modifies this
      ensures var r := RegisterGoogleUser(old(users), id, token, old(activeRole), createdAt);
              (r.Failure? ==> error == r.error && users == old(users) && success == old(success))
              && (r.Success? ==> error == old(error) && users == r.value && success == "Google registration successful! Redirecting...")
      ensures name == old(name) && email == old(email) && password == old(password) && confirmPassword == old(confirmPassword)
      ensures activeRole == old(activeRole)
    {
      var r := RegisterGoogleUser(users, id, token, activeRole, createdAt);
      if r.Failure? {
        error := r.error;
        return;
      }
      users := r.value;
      success := "Google registration successful! Redirecting...";
    }
  }
}
