/** The registration form: four checks in a fixed order, the first failure deciding the
    message, and a call to the auth context's `register` only when all pass. */
module RegisterPage {
  import opened Common
  import opened EmailPattern
  import opened AuthContext

  /** `password.length`: JavaScript counts UTF-16 code units, so a character outside the Basic
      Multilingual Plane counts twice. */
  function Utf16Length(s: string): (n: nat)
    ensures |s| <= n <= 2 * |s|
    ensures (forall m :: 0 <= m < |s| ==> s[m] as int <= 0xFFFF) ==> n == |s|
  {
    if s == [] then 0
    else (if s[0] as int > 0xFFFF then 2 else 1) + Utf16Length(s[1..])
  }

  datatype RegisterCheck = MissingField | InvalidEmail | PasswordMismatch | PasswordTooShort | Passed

  const MinPasswordLength := 6

  /** The checks of `handleSubmit` in their order. */
  function ValidateRegistration(name: string, email: string, password: string, confirm: string): (r: RegisterCheck)
    ensures r == MissingField <==> name == "" || email == "" || password == "" || confirm == ""
    ensures r == InvalidEmail <==>
              name != "" && email != "" && password != "" && confirm != "" && !MatchesEmailPattern(email)
    ensures r == PasswordMismatch <==>
              name != "" && email != "" && password != "" && confirm != "" && MatchesEmailPattern(email)
              && password != confirm
    ensures r == PasswordTooShort <==>
              name != "" && email != "" && password != "" && MatchesEmailPattern(email)
              && password == confirm && Utf16Length(password) < MinPasswordLength
    ensures r == Passed <==>
              name != "" && email != "" && MatchesEmailPattern(email)
              && password == confirm && Utf16Length(password) >= MinPasswordLength
  {
    EmailPatternIsValidEmail(email);
    if name == "" || email == "" || password == "" || confirm == "" then MissingField
    else if !IsValidEmail(email) then InvalidEmail
    else if password != confirm then PasswordMismatch
    else if Utf16Length(password) < MinPasswordLength then PasswordTooShort
    else Passed
  }

  /** The length check's boundary: six characters pass, and five from the Basic Multilingual
      Plane do not. */
  lemma PasswordLengthBoundary(name: string, email: string, password: string)
    requires name != "" && MatchesEmailPattern(email)
    ensures |password| >= 6 ==> ValidateRegistration(name, email, password, password) == Passed
    ensures |password| == 5 && (forall m :: 0 <= m < 5 ==> password[m] as int <= 0xFFFF) ==>
              ValidateRegistration(name, email, password, password) == PasswordTooShort
  {
  }

  class RegisterForm {
    var name: string
    var email: string
    var password: string
    var confirmPassword: string
    var isLoading: bool
    var location: string
    const auth: AuthProvider

    constructor (provider: AuthProvider, path: string)
      ensures auth == provider && location == path && !isLoading
      ensures name == "" && email == "" && password == "" && confirmPassword == ""
    {
      name, email, password, confirmPassword := "", "", "", "";
      isLoading := false;
      location := path;
      auth := provider;
    }

    /** `handleSubmit`, with `register` awaited: a failed check leaves the accounts untouched;
        the dashboard opens only when `register` succeeds; loading ends on every path. */
    method HandleSubmit() returns (check: RegisterCheck, success: bool)
      modifies this`isLoading, this`location, auth
      ensures check == ValidateRegistration(name, email, password, confirmPassword)
      ensures !isLoading
      ensures check != Passed ==> !success && unchanged(auth) && location == old(location)
      ensures success <==> check == Passed && RegisterOutcome(old(auth.accounts), email, password, name).Registered?
      ensures location == if success then "/dashboard" else old(location)
      ensures success ==> auth.user == Some(User(email, Some(name)))
      ensures check == Passed && !success ==> auth.accounts == old(auth.accounts) && auth.user == old(auth.user)
    {
      isLoading := true;
      check := ValidateRegistration(name, email, password, confirmPassword);
      if check != Passed {
        isLoading := false;
        return check, false;
      }
      success := auth.Register(email, password, name);
      if success {
        location := "/dashboard";
      }
      isLoading := false;
    }
  }
}
