/**
 * The sign-in page: its two-field validation, the user record it builds from
 * the e-mail address, and where it goes afterwards.
 */
module Login {
  import opened Wrappers
  import opened Storage
  import opened Entities
  import opened Validation
  import opened Auth

  datatype LoginField = EmailField | PasswordField

  const EmailRequired := "Email is required"
  const EmailInvalid := "Email is invalid"
  const PasswordRequired := "Password is required"
  const PasswordTooShort := "Password must be at least 6 characters"

  /** The e-mail check on the untrimmed text: empty is required, otherwise it must have the address shape. */
  function EmailError(email: string): (r: Option<string>)
    ensures r.None? <==> EmailShaped(email)
    ensures r == Some(EmailRequired) <==> email == []
  {
    if email == [] then Some(EmailRequired)
    else if !EmailShaped(email) then Some(EmailInvalid)
    else None
  }

  function PasswordError(password: string): (r: Option<string>)
    ensures r.None? <==> PasswordLongEnough(password)
    ensures r == Some(PasswordRequired) <==> password == []
  {
    if password == [] then Some(PasswordRequired)
    else if !PasswordLongEnough(password) then Some(PasswordTooShort)
    else None
  }

  /** `email.split('@')[0]`: everything before the first `@`, or all of it. */
  function UserName(email: string): (r: string)
    ensures |r| <= |email| && r == email[..|r|]
    ensures '@' !in r
    ensures |r| < |email| ==> email[|r|] == '@'
  {
    if email == [] || email[0] == '@' then []
    else
      var rest := UserName(email[1..]);
      assert [email[0]] + rest == email[..1 + |rest|];
      [email[0]] + rest
  }

  /** For an address `name@domain` whose name part has no `@`, the user name is that part. */
  lemma UserNameOfAddress(name: string, domain: string)
    requires '@' !in name
    ensures UserName(name + "@" + domain) == name
  {
    var e := name + "@" + domain;
    var r := UserName(e);
    assert e[|name|] == '@';
    assert e[..|name|] == name;
  }

  /** The user record built on a successful sign-in. */
  function UserFor(email: string): User {
    User(email, UserName(email))
  }

  /** `searchParams.get('redirect') || '/'`: the parameter when present and non-empty, else the home page. */
  function RedirectPath(redirect: Option<string>): (r: string)
    ensures r != []
    ensures redirect.Some? && redirect.value != [] ==> r == redirect.value
    ensures redirect.None? || redirect.value == [] ==> r == "/"
  {
    if redirect.Some? && redirect.value != [] then redirect.value else "/"
  }

  /** The messages `validateForm` records: one for each field whose check fails, and no other entry. */
  predicate RecordedErrors(errors: map<LoginField, string>, email: string, password: string) {
    (EmailField in errors <==> EmailError(email).Some?)
    && (EmailField in errors ==> errors[EmailField] == EmailError(email).value)
    && (PasswordField in errors <==> PasswordError(password).Some?)
    && (PasswordField in errors ==> errors[PasswordField] == PasswordError(password).value)
  }

  class LoginForm {
    var email: string
    var password: string
    var errors: map<LoginField, string>

    constructor ()
      ensures email == [] && password == [] && errors == map[]
    {
      email := [];
      password := [];
      errors := map[];
    }

    /** `validateForm`: one message per failing field; valid when none is recorded. */
    method ValidateForm() returns (ok: bool)
      modifies this`errors
      ensures RecordedErrors(errors, email, password)
      ensures ok <==> errors == map[]
      ensures ok <==> EmailShaped(email) && PasswordLongEnough(password)
    {
      var e: map<LoginField, string> := map[];
      if email == [] {
        e := e[EmailField := EmailRequired];
      } else if !EmailShaped(email) {
        e := e[EmailField := EmailInvalid];
      }
      if password == [] {
        e := e[PasswordField := PasswordRequired];
      } else if |password| < 6 {
        e := e[PasswordField := PasswordTooShort];
      }
      errors := e;
      ok := e == map[];
    }

    /** `handleSubmit`: an invalid form stops; otherwise the user is signed in and the page moves on. */
    method Submit(auth: AuthStore, redirect: Option<string>) returns (r: Option<string>)
      modifies this`errors, auth`state, auth`slot
      ensures RecordedErrors(errors, email, password)
      ensures r.Some? <==> errors == map[]
      ensures r.Some? <==> EmailShaped(email) && PasswordLongEnough(password)
      ensures r.None? ==> auth.state == old(auth.state) && auth.slot == old(auth.slot)
      ensures r.Some? ==> (r.value == RedirectPath(redirect)
        && auth.state == AuthState(true, Some(UserFor(email)))
        && auth.slot == AfterWrite(old(auth.slot), auth.state, auth.writesFail))
    {
      var ok := ValidateForm();
      if !ok {
        return None;
      }
      auth.Login(UserFor(email));
      r := Some(RedirectPath(redirect));
    }
  }
}
