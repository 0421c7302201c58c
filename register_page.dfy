/** `handleSubmit` of src/pages/RegisterPage.tsx: the sign-up form's chain of
    checks, run in a fixed order with an early return on the first failure,
    followed by the `signUp` call that the checks guard. */
module RegisterPage {
  import opened Wrappers
  import opened Text

  const FirstNameRequired := "First name is required"
  const LastNameRequired := "Last name is required"
  const PasswordMismatch := "Passwords do not match"
  const PasswordTooShort := "Password must be at least 8 characters"
  const RegisterFallback := "Failed to register. Please try again."

  /** The shortest password, counted in UTF-16 code units as `length` does. */
  const MinPasswordLength := 8

  /** The checks in the order `handleSubmit` makes them: the message of the
      first that fails, or `None` when the form may be sent. */
  function ValidationError(firstName: string, lastName: string, password: string, confirm: string): Option<string> {
    if Trim(firstName) == "" then Some(FirstNameRequired)
    else if Trim(lastName) == "" then Some(LastNameRequired)
    else if password != confirm then Some(PasswordMismatch)
    else if Utf16Length(password) < MinPasswordLength then Some(PasswordTooShort)
    else None
  }

  /** What `signUp` is given: the email as typed, as both the user name and the
      email attribute, and the names trimmed. */
  datatype SignUpRequest =
    SignUpRequest(username: string, password: string, email: string, givenName: string, familyName: string)

  function RequestFor(firstName: string, lastName: string, email: string, password: string): SignUpRequest {
    SignUpRequest(email, password, email, Trim(firstName), Trim(lastName))
  }

  /** How the awaited `signUp` ends. */
  datatype SignUpOutcome = SignedUp | SignUpFailed(message: string)

  /** `err.message || default`. */
  function FailureText(message: string): string {
    if message == "" then RegisterFallback else message
  }

  class RegisterForm {
    var firstName: string
    var lastName: string
    var email: string
    var password: string
    var confirmPassword: string
    var error: string
    var loading: bool
    var needsConfirmation: bool
    /** The `signUp` calls made so far. */
    var signUps: seq<SignUpRequest>

    constructor()
      ensures firstName == "" && lastName == "" && email == "" && password == "" && confirmPassword == ""
      ensures error == "" && !loading && !needsConfirmation && signUps == []
    {
      firstName, lastName, email, password, confirmPassword := "", "", "", "", "";
      error := "";
      loading := false;
      needsConfirmation := false;
      signUps := [];
    }

    /** The text fields' `onChange` handlers. */
    method Enter(first: string, last: string, mail: string, pw: string, confirm: string)
      modifies this
      ensures firstName == first && lastName == last && email == mail
      ensures password == pw && confirmPassword == confirm
      ensures error == old(error) && loading == old(loading)
      ensures needsConfirmation == old(needsConfirmation) && signUps == old(signUps)
    {
      firstName, lastName, email, password, confirmPassword := first, last, mail, pw, confirm;
    }

    /** `handleSubmit`. A failed check shows its message and returns before
        `signUp` and before `loading` is touched; otherwise one `signUp` call
        is made, and its outcome either asks for the confirmation code or
        shows the thrown message. `loading` is false once the call has ended.
        The fields typed in are never changed. */
    method HandleSubmit(outcome: SignUpOutcome)
      modifies this
      ensures firstName == old(firstName) && lastName == old(lastName) && email == old(email)
      ensures password == old(password) && confirmPassword == old(confirmPassword)
      ensures var e := ValidationError(firstName, lastName, password, confirmPassword);
        e.Some? ==>
          error == e.value && loading == old(loading) &&
          needsConfirmation == old(needsConfirmation) && signUps == old(signUps)
      ensures ValidationError(firstName, lastName, password, confirmPassword).None? ==>
        signUps == old(signUps) + [RequestFor(firstName, lastName, email, password)] && !loading
      ensures ValidationError(firstName, lastName, password, confirmPassword).None? && outcome.SignedUp? ==>
        needsConfirmation && error == ""
      ensures ValidationError(firstName, lastName, password, confirmPassword).None? && outcome.SignUpFailed? ==>
        needsConfirmation == old(needsConfirmation) && error == FailureText(outcome.message)
    {
      error := "";
      var failed := ValidationError(firstName, lastName, password, confirmPassword);
      if failed.Some? {
        error := failed.value;
        return;
      }
      loading := true;
      signUps := signUps + [RequestFor(firstName, lastName, email, password)];
      match outcome {
        case SignedUp =>
          needsConfirmation := true;
        case SignUpFailed(message) =>
          error := FailureText(message);
      }
      loading := false;
    }
  }

  // ---------------------------------------------------------------------------
  // Properties
  // ---------------------------------------------------------------------------

  /** The form passes exactly when both names hold something other than white
      space, the two passwords agree, and the password is at least eight
      code units long. */
  lemma ValidationIff(firstName: string, lastName: string, password: string, confirm: string)
    ensures ValidationError(firstName, lastName, password, confirm).None? <==>
      !AllSpace(firstName) && !AllSpace(lastName) && password == confirm && Utf16Length(password) >= 8
  {
    TrimEmptyIff(firstName);
    TrimEmptyIff(lastName);
  }

  /** The order of the checks: a blank first name is reported whatever else is
      wrong, then a blank last name, and a mismatch is reported before the
      length rule. */
  lemma CheckOrder(firstName: string, lastName: string, password: string, confirm: string)
    ensures AllSpace(firstName) ==> ValidationError(firstName, lastName, password, confirm) == Some(FirstNameRequired)
    ensures !AllSpace(firstName) && AllSpace(lastName) ==>
      ValidationError(firstName, lastName, password, confirm) == Some(LastNameRequired)
    ensures !AllSpace(firstName) && !AllSpace(lastName) && password != confirm ==>
      ValidationError(firstName, lastName, password, confirm) == Some(PasswordMismatch)
    ensures !AllSpace(firstName) && !AllSpace(lastName) && password == confirm && Utf16Length(password) < 8 ==>
      ValidationError(firstName, lastName, password, confirm) == Some(PasswordTooShort)
  {
    TrimEmptyIff(firstName);
    TrimEmptyIff(lastName);
  }

  /** The length boundary, in the characters a user types: eight or more always
      pass, fewer than four never do (each character is at most two code
      units), and exactly eight code units pass. */
  lemma LengthBoundary(firstName: string, lastName: string, password: string)
    requires !AllSpace(firstName) && !AllSpace(lastName)
    ensures |password| >= 8 ==> ValidationError(firstName, lastName, password, password).None?
    ensures |password| < 4 ==> ValidationError(firstName, lastName, password, password) == Some(PasswordTooShort)
    ensures Utf16Length(password) == 8 ==> ValidationError(firstName, lastName, password, password).None?
    ensures Utf16Length(password) == 7 ==> ValidationError(firstName, lastName, password, password) == Some(PasswordTooShort)
  {
    TrimEmptyIff(firstName);
    TrimEmptyIff(lastName);
    assert ValidationError(firstName, lastName, password, password) ==
      if Utf16Length(password) < MinPasswordLength then Some(PasswordTooShort) else None;
  }

  /** Whatever reaches `signUp` has non-blank names with no white space at
      either end, a password of at least eight code units, and the email as
      typed. */
  lemma RequestWellFormed(firstName: string, lastName: string, email: string, password: string)
    requires ValidationError(firstName, lastName, password, password).None?
    ensures var r := RequestFor(firstName, lastName, email, password);
      r.username == email && r.email == email &&
      r.givenName != "" && !IsJsSpace(r.givenName[0]) && !IsJsSpace(r.givenName[|r.givenName| - 1]) &&
      r.familyName != "" && !IsJsSpace(r.familyName[0]) && !IsJsSpace(r.familyName[|r.familyName| - 1]) &&
      Utf16Length(r.password) >= MinPasswordLength
  {
    assert Trim(firstName) != "" && Trim(lastName) != "";
    TrimKeepsNoSpace(firstName);
    TrimKeepsNoSpace(lastName);
  }
}
