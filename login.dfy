/** The login form: two checks in a fixed order, then a delayed call to the auth context's
    `login` with the credentials captured at submission. */
module LoginPage {
  import opened Common
  import opened EmailPattern
  import opened AuthContext

  datatype LoginCheck = LoginMissingField | LoginInvalidEmail | LoginPassed

  /** The validation in `handleSubmit`: emptiness first, then the email pattern. */
  function ValidateLogin(email: string, password: string): (r: LoginCheck)
    ensures r == LoginMissingField <==> email == "" || password == ""
    ensures r == LoginInvalidEmail <==> email != "" && password != "" && !MatchesEmailPattern(email)
    ensures r == LoginPassed <==> email != "" && password != "" && MatchesEmailPattern(email)
  {
    EmailPatternIsValidEmail(email);
    if email == "" || password == "" then LoginMissingField
    else if !IsValidEmail(email) then LoginInvalidEmail
    else LoginPassed
  }

  /** Credentials that pass the form's checks are never refused by `login`. */
  lemma PassedLoginIsAccepted(email: string, password: string)
    requires ValidateLogin(email, password) == LoginPassed
    ensures email != "" && password != ""
    ensures IsValidEmail(email)
  {
    EmailPatternIsValidEmail(email);
  }

  /** The form state; `pending` holds the credentials of each submission whose 1.5 s timer has
      not run yet, oldest first (timers of equal delay run in the order they were set). */
  class LoginForm {
    var email: string
    var password: string
    var isLoading: bool
    var pending: seq<(string, string)>
    var location: string
    const auth: AuthProvider

    ghost predicate Valid()
      reads this
    {
      forall i :: 0 <= i < |pending| ==> ValidateLogin(pending[i].0, pending[i].1) == LoginPassed
    }

    constructor (provider: AuthProvider, path: string)
      ensures Valid() && auth == provider && location == path
      ensures email == "" && password == "" && !isLoading && pending == []
    {
      email, password := "", "";
      isLoading := false;
      pending := [];
      location := path;
      auth := provider;
    }

    /** `handleSubmit`: a failed check ends loading at once; a passing one schedules the login. */
    method HandleSubmit() returns (check: LoginCheck)
      requires Valid()
      modifies this`isLoading, this`pending
      ensures Valid()
      ensures check == ValidateLogin(email, password)
      ensures check != LoginPassed ==> !isLoading && pending == old(pending)
      ensures check == LoginPassed ==> isLoading && pending == old(pending) + [(email, password)]
    {
      isLoading := true;
      check := ValidateLogin(email, password);
      if check != LoginPassed {
        isLoading := false;
        return;
      }
      pending := pending + [(email, password)];
    }

    /** The oldest pending timer runs: it calls `login` with the captured credentials, which
        signs that email in, then moves to the dashboard and ends loading. */
    method LoginTimerFires()
      requires Valid() && pending != []
      modifies this`isLoading, this`pending, this`location, auth
      ensures Valid()
      ensures pending == old(pending)[1..]
      ensures auth.user == Some(User(old(pending)[0].0, None))
      ensures auth.session == Session(User(old(pending)[0].0, None))
      ensures auth.accounts == old(auth.accounts) && !auth.isLoading
      ensures location == "/dashboard" && !isLoading
    {
      var (e, p) := pending[0];
      assert ValidateLogin(e, p) == LoginPassed;
      var _ := auth.Login(e, p);
      location := "/dashboard";
      isLoading := false;
      pending := pending[1..];
    }
  }
}
