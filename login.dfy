/** The login screen: the two input guards, sign-in followed by the check for
    an enrolled TOTP factor, forced enrollment, and the overlay-protection
    switch that is kept in storage. */
module Login {
  import opened Common
  import opened EmailRule

  /** The outcome of the guards of `handleLogin`. */
  datatype Guard = InvalidEmail | MissingField | Proceed

  /** `handleLogin`'s guards in their order: the email shape first, then
      `!email || !password`. */
  function LoginGuard(email: string, password: string): (g: Guard)
    ensures g == InvalidEmail <==> !IsValidEmail(email)
    ensures g == MissingField <==> IsValidEmail(email) && password == ""
    ensures g == Proceed <==> IsValidEmail(email) && password != ""
  {
    if !IsValidEmail(email) then InvalidEmail
    else if email == "" || password == "" then MissingField
    else Proceed
  }

  const InvalidEmailAlert := ShowAlert("Invalid Email", "Please enter a valid email address.")
  const MissingFieldAlert := ShowAlert("Error", "Please fill in all fields")

  /** The alert a failed guard shows. */
  function GuardAlert(g: Guard): Effect
    requires g != Proceed
  {
    if g == InvalidEmail then InvalidEmailAlert else MissingFieldAlert
  }

  /** An empty email is reported as invalid, not as a missing field, whatever
      the password. */
  lemma EmptyEmailIsInvalid(password: string)
    ensures LoginGuard("", password) == InvalidEmail
  {
    EmptyIsInvalid();
  }

  /** The text `Boolean.prototype.toString` gives. */
  function BoolText(b: bool): (s: string)
    ensures s == "true" || s == "false"
  {
    if b then "true" else "false"
  }

  /** How `restoreOverlaySetting` reads a stored value: only "true" hides. */
  function RestoredFlag(value: string): (hidden: bool)
    ensures hidden <==> value == "true"
  {
    value == "true"
  }

  /** Restoring what `toggleOverlay` stored gives back the flag it stored. */
  lemma RestoreRoundTrip(b: bool)
    ensures RestoredFlag(BoolText(b)) == b
  {
  }

  const OverlayKey := "overlayHidden"
  const UnexpectedAlert := ShowAlert("Unexpected Error", "An unexpected error occurred")
  const MfaRequiredAlert := ShowAlert("MFA Required", "Two-factor authentication is required to use this application. Please complete the setup to continue.")

  /** The value of `loginStep`. */
  datatype LoginStep = LoginForm | MfaSetup

  /** Which awaited call of `handleLogin` is in flight. */
  datatype Stage = SigningIn | ListingFactors

  /** The state of the `Login` component; `overlayModule` says whether the
      native `OverlayWindowModule` exists (it is called with `?.`). An
      awaited call splits a handler: the part before the `await` records the
      call in `pending`, the reply method runs the rest. */
  class LoginScreen {
    const overlayModule: bool
    var email: string
    var password: string
    var loading: bool
    var overlayHidden: bool
    var showMFAEnrollment: bool
    var loginStep: LoginStep
    var pending: Option<Stage>
    var effects: seq<Effect>

    /** The `finally` of `handleLogin` clears `loading` on every exit, so the
        screen is loading exactly while a call is in flight; the forced
        enrollment goes with the MFA-setup step. */
    ghost predicate Valid()
      reads this
    {
      && (loading <==> pending.Some?)
      && (showMFAEnrollment ==> loginStep == MfaSetup)
    }

    constructor (overlayModule: bool)
      ensures Valid() && this.overlayModule == overlayModule
      ensures email == "" && password == "" && !loading && !overlayHidden
      ensures !showMFAEnrollment && loginStep == LoginForm && pending == None && effects == []
    {
      this.overlayModule := overlayModule;
      email, password := "", "";
      loading, overlayHidden, showMFAEnrollment := false, false, false;
      loginStep := LoginForm;
      pending := None;
      effects := [];
    }

    method SetEmail(text: string)
      modifies this
      ensures email == text && password == old(password) && loading == old(loading)
      ensures overlayHidden == old(overlayHidden) && showMFAEnrollment == old(showMFAEnrollment)
      ensures loginStep == old(loginStep) && pending == old(pending) && effects == old(effects)
    {
      email := text;
    }

    method SetPassword(text: string)
      modifies this
      ensures password == text && email == old(email) && loading == old(loading)
      ensures overlayHidden == old(overlayHidden) && showMFAEnrollment == old(showMFAEnrollment)
      ensures loginStep == old(loginStep) && pending == old(pending) && effects == old(effects)
    {
      password := text;
    }

    /** `handleLogin` up to the sign-in `await` (the Login button is only on
        screen while not loading). A failed guard alerts and calls nothing. */
    method HandleLogin()
      requires Valid() && !loading
      modifies this
      ensures Valid()
      ensures var g := LoginGuard(email, password);
        && (g != Proceed ==> pending == None && effects == old(effects) + [GuardAlert(g)])
        && (g == Proceed ==> pending == Some(SigningIn) && effects == old(effects))
      ensures email == old(email) && password == old(password) && overlayHidden == old(overlayHidden)
      ensures showMFAEnrollment == old(showMFAEnrollment) && loginStep == old(loginStep)
    {
      var g := LoginGuard(email, password);
      if g != Proceed {
        effects := effects + [GuardAlert(g)];
        return;
      }
      loading := true;
      pending := Some(SigningIn);
    }

    /** The sign-in answer: an error is alerted and ends the attempt, a
        rejection ends in the catch-all alert, success goes on to list the
        factors. */
    method OnSignInReply(reply: Reply<()>)
      requires Valid() && pending == Some(SigningIn)
      modifies this
      ensures Valid()
      ensures reply.Ok? ==> pending == Some(ListingFactors) && effects == old(effects)
      ensures reply.Err? ==> pending == None && effects == old(effects) + [ShowAlert("Login Error", reply.message)]
      ensures reply.Threw? ==> pending == None && effects == old(effects) + [UnexpectedAlert]
      ensures email == old(email) && password == old(password) && overlayHidden == old(overlayHidden)
      ensures showMFAEnrollment == old(showMFAEnrollment) && loginStep == old(loginStep)
    {
      match reply
      case Ok(_) =>
        pending := Some(ListingFactors);
      case Err(m) =>
        effects := effects + [ShowAlert("Login Error", m)];
        loading := false;
        pending := None;
      case Threw =>
        effects := effects + [UnexpectedAlert];
        loading := false;
        pending := None;
    }

    /** The factor list: a user without a TOTP factor is sent to enrollment,
        one with a factor goes home. `loading` is cleared on every path. */
    method OnListFactorsReply(reply: Reply<FactorList>)
      requires Valid() && pending == Some(ListingFactors)
      modifies this
      ensures Valid() && pending == None && !loading
      ensures reply.Ok? && reply.data.totp == [] ==>
        loginStep == MfaSetup && showMFAEnrollment && effects == old(effects)
      ensures reply.Ok? && reply.data.totp != [] ==>
        && loginStep == old(loginStep) && showMFAEnrollment == old(showMFAEnrollment)
        && effects == old(effects) + [Navigate(HomeRoute)]
      ensures reply.Err? ==>
        && loginStep == old(loginStep) && showMFAEnrollment == old(showMFAEnrollment)
        && effects == old(effects) + [ShowAlert("Error", "Unable to check MFA status")]
      ensures reply.Threw? ==>
        && loginStep == old(loginStep) && showMFAEnrollment == old(showMFAEnrollment)
        && effects == old(effects) + [UnexpectedAlert]
      ensures email == old(email) && password == old(password) && overlayHidden == old(overlayHidden)
    {
      match reply {
        case Ok(factors) =>
          if |factors.totp| == 0 {
            loginStep := MfaSetup;
            showMFAEnrollment := true;
          } else {
            effects := effects + [Navigate(HomeRoute)];
          }
        case Err(_) =>
          effects := effects + [ShowAlert("Error", "Unable to check MFA status")];
        case Threw =>
          effects := effects + [UnexpectedAlert];
      }
      loading := false;
      pending := None;
    }

    /** `handleMFAEnrollmentComplete`: back to the login step, then home. */
    method OnEnrollmentComplete()
      requires Valid() && showMFAEnrollment
      modifies this
      ensures Valid() && !showMFAEnrollment && loginStep == LoginForm
      ensures effects == old(effects) + [Navigate(HomeRoute)]
      ensures email == old(email) && password == old(password) && loading == old(loading)
      ensures overlayHidden == old(overlayHidden) && pending == old(pending)
    {
      showMFAEnrollment := false;
      loginStep := LoginForm;
      effects := effects + [Navigate(HomeRoute)];
    }

    /** `handleMFAEnrollmentCancel`: enrollment is mandatory, so cancelling
        only explains that and changes no state. */
    method OnEnrollmentCancel()
      requires Valid() && showMFAEnrollment
      modifies this
      ensures Valid() && showMFAEnrollment && loginStep == old(loginStep)
      ensures effects == old(effects) + [MfaRequiredAlert]
      ensures email == old(email) && password == old(password) && loading == old(loading)
      ensures overlayHidden == old(overlayHidden) && pending == old(pending)
    {
      effects := effects + [MfaRequiredAlert];
    }

    /** `toggleOverlay`: flips the flag, tells the native module (when there
        is one) and stores the new value as text. */
    method ToggleOverlay()
      requires Valid()
      modifies this
      ensures Valid() && overlayHidden == !old(overlayHidden)
      ensures effects == old(effects) + (if overlayModule then [SetHideOverlay(overlayHidden)] else [])
        + [StoreItem(OverlayKey, BoolText(overlayHidden))]
      ensures RestoredFlag(BoolText(overlayHidden)) == overlayHidden
      ensures email == old(email) && password == old(password) && loading == old(loading)
      ensures showMFAEnrollment == old(showMFAEnrollment) && loginStep == old(loginStep) && pending == old(pending)
    {
      var newState := !overlayHidden;
      if overlayModule {
        effects := effects + [SetHideOverlay(newState)];
      }
      overlayHidden := newState;
      effects := effects + [StoreItem(OverlayKey, BoolText(newState))];
      RestoreRoundTrip(newState);
    }

    /** `restoreOverlaySetting` with the value `getItem` returned: nothing
        stored leaves the flag alone; a stored value sets it to whether the
        value is "true". */
    method RestoreOverlaySetting(stored: Option<string>)
      requires Valid()
      modifies this
      ensures Valid()
      ensures stored.None? ==> overlayHidden == old(overlayHidden) && effects == old(effects)
      ensures stored.Some? ==>
        && overlayHidden == RestoredFlag(stored.value)
        && effects == old(effects) + (if overlayModule then [SetHideOverlay(overlayHidden)] else [])
      ensures email == old(email) && password == old(password) && loading == old(loading)
      ensures showMFAEnrollment == old(showMFAEnrollment) && loginStep == old(loginStep) && pending == old(pending)
    {
      if stored.Some? {
        var hidden := RestoredFlag(stored.value);
        if overlayModule {
          effects := effects + [SetHideOverlay(hidden)];
        }
        overlayHidden := hidden;
      }
    }
  }
}
