/**
 * The forgotten-password page: the e-mail checks and the lookup of an
 * account with that e-mail.  No message is really sent.
 */
module ForgotPassword {
  import opened Js
  import opened Users
  import Register

  /** `validateForm`: an e-mail is given, and has the e-mail shape. */
  function Validate(email: string): (r: Option<string>)
    ensures r.None? <==> email != "" && IsEmail(email)
    ensures email == "" ==> r == Some("Please enter your email address")
    ensures email != "" && !IsEmail(email) ==> r == Some("Please enter a valid email address")
  {
    if email == "" then Some("Please enter your email address")
    else if !CheckEmail(email) then Some("Please enter a valid email address")
    else None
  }

  /** The confirmation shown for an e-mail. */
  function SentMessage(email: string): (m: string)
    ensures Includes(m, email)
  {
    var prefix := "Password reset instructions have been sent to ";
    var m := prefix + email;
    assert m[|prefix|..|prefix| + |email|] == email;
    IncludesAt(m, email, |prefix|);
    m
  }

  /**
   * `handleSubmit` after the wait: the check's message, or the message
   * that no account has the e-mail in any letter case, or the
   * confirmation.
   */
  function Submit(users: seq<Obj>, email: string): (r: Result<string>)
    ensures Validate(email).Some? ==> r == Failure(Validate(email).value)
    ensures Validate(email).None? && !EmailTaken(users, email) ==> r == Failure("No account found with this email address")
    ensures r.Success? <==> Validate(email).None? && EmailTaken(users, email)
    ensures r.Success? ==> Includes(r.value, email)
  {
    match Validate(email)
    case Some(message) => Failure(message)
    case None => if !EmailTaken(users, email) then Failure("No account found with this email address") else Success(SentMessage(email))
  }

  /** An address that has just signed up is found, whatever the letter case it is typed in. */
  lemma FoundAfterSignUp(users: seq<Obj>, id: string, name: string, email: string, password: string,
                         role: string, createdAt: string, typed: string)
    requires Register.RegisterUser(users, id, name, email, password, role, createdAt).Success?
    requires EqualFold(email, typed) && IsEmail(typed)
    ensures Submit(Register.RegisterUser(users, id, name, email, password, role, createdAt).value, typed).Success?
  {
    var after := Register.RegisterUser(users, id, name, email, password, role, createdAt).value;
    assert after[|users|] == Register.NewUser(id, name, email, password, role, createdAt);
    assert SameEmail(after[|users|], typed);
  }

  class ForgotPasswordPage {
    var email: string
    var error: string
    var success: string

    constructor ()
      ensures email == "" && error == "" && success == ""
    {
      email, error, success := "", "", "";
    }

    /** `handleSubmit` against the stored users: on success the field clears. */
    method HandleSubmit(users: seq<Obj>)
      modifies this
      ensures var r := Submit(users, old(email));
              (r.Failure? ==> error == r.error && email == old(email) && success == old(success))
              && (r.Success? ==> error == "" && success == r.value && email == "")
    {
      error := "";
      var r := Submit(users, email);
      if r.Failure? {
        error := r.error;
        return;
      }
      success := r.value;
      email := "";
    }
  }
}
