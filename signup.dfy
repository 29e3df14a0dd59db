/** The sign-up screen: four input checks in a fixed order, the sign-up call,
    and the hand-over to multi-factor enrollment. */
module Signup {
  import opened Common
  import opened Text
  import opened EmailRule

  /** The outcome of the checks `handleSignup` makes before calling the
      backend: the first check that fails, or `Proceed`. */
  datatype Gate = InvalidEmail | TooShort | TooCommon | Mismatch | Proceed

  const MinPasswordLength := 8

  /** The checks of `handleSignup` in their order: email shape, length (in
      UTF-16 code units, as `.length` counts), the list of common passwords,
      and the confirmation. */
  function SignupGate(email: string, password: string, confirm: string, weak: seq<string>): (g: Gate)
    ensures g == Proceed <==>
      IsValidEmail(email) && Utf16Length(password) >= MinPasswordLength && password !in weak && password == confirm
    ensures g == InvalidEmail <==> !IsValidEmail(email)
    ensures g == TooShort <==> IsValidEmail(email) && Utf16Length(password) < MinPasswordLength
    ensures g == TooCommon <==>
      IsValidEmail(email) && Utf16Length(password) >= MinPasswordLength && password in weak
    ensures g == Mismatch <==>
      IsValidEmail(email) && Utf16Length(password) >= MinPasswordLength && password !in weak && password != confirm
  {
    if !IsValidEmail(email) then InvalidEmail
    else if Utf16Length(password) < MinPasswordLength then TooShort
    else if password in weak then TooCommon
    else if password != confirm then Mismatch
    else Proceed
  }

  const InvalidEmailAlert := ShowAlert("Invalid Email", "Please enter a valid email address.")
  const TooShortAlert := ShowAlert("Weak Password", "Password must be at least 8 characters long")
  const TooCommonAlert := ShowAlert("Weak Password", "This password is too common or easily guessable. Please choose another.")
  const MismatchAlert := ShowAlert("Error", "Passwords do not match")

  /** The alert a failed check shows. */
  function GateAlert(g: Gate): Effect
    requires g != Proceed
  {
    match g
    case InvalidEmail => InvalidEmailAlert
    case TooShort => TooShortAlert
    case TooCommon => TooCommonAlert
    case Mismatch => MismatchAlert
  }

  /** A short password is turned down before the list of common passwords is
      consulted: the outcome is the same whatever the list holds. */
  lemma ShortPasswordIgnoresList(email: string, password: string, confirm: string, weak: seq<string>, other: seq<string>)
    requires IsValidEmail(email) && Utf16Length(password) < MinPasswordLength
    ensures SignupGate(email, password, confirm, weak) == TooShort
    ensures SignupGate(email, password, confirm, weak) == SignupGate(email, password, confirm, other)
  {
  }

  /** A common password is turned down when it is long enough, whatever the
      confirmation is: the list is consulted before the confirmation. */
  lemma CommonPasswordRejected(email: string, password: string, confirm: string, weak: seq<string>)
    requires IsValidEmail(email) && Utf16Length(password) >= MinPasswordLength && password in weak
    ensures SignupGate(email, password, confirm, weak) == TooCommon
  {
  }

  /** An invalid email is reported whatever the passwords are, so no
      password alert is shown with it. */
  lemma EmailCheckedFirst(email: string, password: string, confirm: string, weak: seq<string>)
    requires !IsValidEmail(email)
    ensures SignupGate(email, password, confirm, weak) == InvalidEmail
  {
  }

  /** For a password inside the Basic Multilingual Plane the 8-code-unit
      rule is a rule of 8 characters. */
  lemma BmpPasswordLength(email: string, password: string, confirm: string, weak: seq<string>)
    requires IsValidEmail(email)
    requires forall k | 0 <= k < |password| :: password[k] as int <= 0xFFFF
    ensures SignupGate(email, password, confirm, weak) == TooShort <==> |password| < MinPasswordLength
  {
    BmpLength(password);
  }

  /** The sign-up call in flight, with the credentials it was made with. */
  datatype SignUpRequest = SignUpRequest(email: string, password: string)

  const SuccessMessage := "Please check your email to confirm your account. You will need to set up two-factor authentication to complete your registration."

  /** The state of the `Signup` component. An awaited call is split in two:
      `HandleSignup` runs up to the `await` and records the request in
      `pending`; `OnSignUpReply` runs the rest once the backend answers. */
  class SignupScreen {
    var email: string
    var password: string
    var confirmPassword: string
    var loading: bool
    var signupComplete: bool
    var showMFAEnrollment: bool
    /** The success alert with its Continue button is on screen. */
    var continueOffered: bool
    var pending: Option<SignUpRequest>
    var effects: seq<Effect>

    /** A call is in flight only while the screen shows it is loading, and
        the Continue button belongs to a completed sign-up. */
    ghost predicate Valid()
      reads this
    {
      && (pending.Some? ==> loading)
      && (continueOffered ==> signupComplete)
    }

    constructor ()
      ensures Valid()
      ensures email == "" && password == "" && confirmPassword == ""
      ensures !loading && !signupComplete && !showMFAEnrollment && !continueOffered
      ensures pending == None && effects == []
    {
      email, password, confirmPassword := "", "", "";
      loading, signupComplete, showMFAEnrollment, continueOffered := false, false, false, false;
      pending := None;
      effects := [];
    }

    method SetEmail(text: string)
      modifies this
      ensures email == text
      ensures password == old(password) && confirmPassword == old(confirmPassword)
      ensures loading == old(loading) && signupComplete == old(signupComplete)
      ensures showMFAEnrollment == old(showMFAEnrollment) && continueOffered == old(continueOffered)
      ensures pending == old(pending) && effects == old(effects)
    {
      email := text;
    }

    method SetPassword(text: string)
      modifies this
      ensures password == text
      ensures email == old(email) && confirmPassword == old(confirmPassword)
      ensures loading == old(loading) && signupComplete == old(signupComplete)
      ensures showMFAEnrollment == old(showMFAEnrollment) && continueOffered == old(continueOffered)
      ensures pending == old(pending) && effects == old(effects)
    {
      password := text;
    }

    method SetConfirmPassword(text: string)
      modifies this
      ensures confirmPassword == text
      ensures email == old(email) && password == old(password)
      ensures loading == old(loading) && signupComplete == old(signupComplete)
      ensures showMFAEnrollment == old(showMFAEnrollment) && continueOffered == old(continueOffered)
      ensures pending == old(pending) && effects == old(effects)
    {
      confirmPassword := text;
    }

    /** `handleSignup` up to the `await`: the button is disabled while
        loading, so it is pressed only when not loading. The backend is
        called exactly when all four checks pass; otherwise the first failing
        check's alert is the only effect. */
    method HandleSignup(weak: seq<string>)
      requires Valid() && !loading
      modifies this
      ensures Valid()
      ensures var g := SignupGate(email, password, confirmPassword, weak);
        && (g != Proceed ==> effects == old(effects) + [GateAlert(g)] && pending == None && !loading)
        && (g == Proceed ==> effects == old(effects) && pending == Some(SignUpRequest(email, password)) && loading)
      ensures email == old(email) && password == old(password) && confirmPassword == old(confirmPassword)
      ensures signupComplete == old(signupComplete) && showMFAEnrollment == old(showMFAEnrollment)
      ensures continueOffered == old(continueOffered)
    {
      var g := SignupGate(email, password, confirmPassword, weak);
      if g != Proceed {
        effects := effects + [GateAlert(g)];
        return;
      }
      loading := true;
      pending := Some(SignUpRequest(email, password));
    }

    /** The rest of `handleSignup`, once `signUp` answers. An error is
        alerted and leaves `signupComplete` as it was; success marks the
        sign-up complete and offers Continue. A rejected call escapes the
        handler, which has no `finally`, so `loading` stays set. */
    method OnSignUpReply(reply: Reply<()>)
      requires Valid() && pending.Some?
      modifies this
      ensures Valid() && pending == None
      ensures reply.Threw? ==>
        loading && effects == old(effects) && signupComplete == old(signupComplete) && continueOffered == old(continueOffered)
      ensures reply.Err? ==>
        && !loading && effects == old(effects) + [ShowAlert("Signup Failed", reply.message)]
        && signupComplete == old(signupComplete) && continueOffered == old(continueOffered)
      ensures reply.Ok? ==>
        !loading && effects == old(effects) + [ShowAlert("Signup Success", SuccessMessage)] && signupComplete && continueOffered
      ensures showMFAEnrollment == old(showMFAEnrollment)
      ensures email == old(email) && password == old(password) && confirmPassword == old(confirmPassword)
    {
      pending := None;
      match reply
      case Threw =>
      case Err(m) =>
        loading := false;
        effects := effects + [ShowAlert("Signup Failed", m)];
      case Ok(_) =>
        loading := false;
        signupComplete := true;
        effects := effects + [ShowAlert("Signup Success", SuccessMessage)];
        continueOffered := true;
    }

    /** The Continue button of the success alert: only now is enrollment
        shown. */
    method PressContinue()
      requires Valid() && continueOffered
      modifies this
      ensures Valid() && showMFAEnrollment && !continueOffered
      ensures loading == old(loading) && signupComplete == old(signupComplete)
      ensures pending == old(pending) && effects == old(effects)
      ensures email == old(email) && password == old(password) && confirmPassword == old(confirmPassword)
    {
      continueOffered := false;
      showMFAEnrollment := true;
    }

    /** `handleMFAEnrollmentComplete`: leave enrollment for the home screen. */
    method OnEnrollmentComplete()
      requires Valid() && showMFAEnrollment
      modifies this
      ensures Valid() && !showMFAEnrollment && effects == old(effects) + [Navigate(HomeRoute)]
      ensures loading == old(loading) && signupComplete == old(signupComplete)
      ensures continueOffered == old(continueOffered) && pending == old(pending)
      ensures email == old(email) && password == old(password) && confirmPassword == old(confirmPassword)
    {
      showMFAEnrollment := false;
      effects := effects + [Navigate(HomeRoute)];
    }

    /** `handleMFAEnrollmentCancel`: the same as completing. */
    method OnEnrollmentCancel()
      requires Valid() && showMFAEnrollment
      modifies this
      ensures Valid() && !showMFAEnrollment && effects == old(effects) + [Navigate(HomeRoute)]
      ensures loading == old(loading) && signupComplete == old(signupComplete)
      ensures continueOffered == old(continueOffered) && pending == old(pending)
      ensures email == old(email) && password == old(password) && confirmPassword == old(confirmPassword)
    {
      showMFAEnrollment := false;
      effects := effects + [Navigate(HomeRoute)];
    }
  }
}
