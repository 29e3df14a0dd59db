/** `AuthMFA`: the second-factor check of a user who already has a TOTP
    factor. Submitting lists the factors, challenges the first TOTP factor
    and verifies the typed code against that challenge. */
module AuthMfa {
  import opened Common
  import opened Text
  import opened Codes

  const NoFactorError := "No TOTP factors found! Please set up MFA first."
  const SuccessAlert := ShowAlert("Success", "MFA verification successful!")
  const OnSuccess := "onSuccess"

  /** Which awaited call of `onSubmitClicked` is in flight, with what the
      handler has in hand at that point: the code it captured, the factor it
      chose and the challenge it was given. */
  datatype Step =
    | ListingFactors(code: string)
    | Challenging(factorId: string, code: string)
    | Verifying(factorId: string, challengeId: string, code: string)

  /** The state of the component; `hasOnSuccess` says whether the parent passed
      an `onSuccess` callback (it is called with `?.`). */
  class AuthScreen {
    const hasOnSuccess: bool
    var verifyCode: string
    var error: string
    var loading: bool
    var pending: Option<Step>
    var effects: seq<Effect>

    /** The `finally` clears `loading` on every exit, so the screen is loading
        exactly while a call is in flight; the code carried to the backend is
        never blank. */
    ghost predicate Valid()
      reads this
    {
      && (loading <==> pending.Some?)
      && (pending.Some? ==> CodeEntered(pending.value.code))
    }

    constructor (hasOnSuccess: bool)
      ensures Valid() && this.hasOnSuccess == hasOnSuccess
      ensures verifyCode == "" && error == "" && !loading && pending == None && effects == []
    {
      this.hasOnSuccess := hasOnSuccess;
      verifyCode, error := "", "";
      loading := false;
      pending := None;
      effects := [];
    }

    /** The input keeps what was typed without its surrounding whitespace. */
    method OnChangeText(text: string)
      modifies this
      ensures verifyCode == Trim(text)
      ensures error == old(error) && loading == old(loading)
      ensures pending == old(pending) && effects == old(effects)
    {
      verifyCode := Trim(text);
    }

    /** `onSubmitClicked` up to the first `await`. The handler does not look at
        `loading` itself, but the button is disabled while loading. A blank
        code only shows the error; otherwise the error is cleared and the
        factors are listed. */
    method OnSubmitClicked()
      requires Valid() && !loading
      modifies this
      ensures Valid() && verifyCode == old(verifyCode) && effects == old(effects)
      ensures !CodeEntered(verifyCode) ==> error == EmptyCodeError && pending == None
      ensures CodeEntered(verifyCode) ==> error == "" && pending == Some(ListingFactors(verifyCode))
    {
      if !CodeEntered(verifyCode) {
        error := EmptyCodeError;
        return;
      }
      error := "";
      loading := true;
      pending := Some(ListingFactors(verifyCode));
    }

    /** The factor list: an error reply shows its message and an empty TOTP
        list its own error, both ending the attempt; otherwise the first TOTP
        factor is challenged. */
    method OnListFactorsReply(reply: Reply<FactorList>)
      requires Valid() && pending.Some? && pending.value.ListingFactors?
      modifies this
      ensures Valid() && verifyCode == old(verifyCode) && effects == old(effects)
      ensures reply.Ok? && reply.data.totp != [] ==>
        error == old(error) && pending == Some(Challenging(reply.data.totp[0].id, old(pending).value.code))
      ensures reply.Ok? && reply.data.totp == [] ==> error == NoFactorError && pending == None
      ensures reply.Err? ==> error == reply.message && pending == None
      ensures reply.Threw? ==> error == UnexpectedError && pending == None
    {
      var code := pending.value.code;
      match reply
      case Ok(factors) =>
        if factors.totp == [] {
          error := NoFactorError;
          loading, pending := false, None;
        } else {
          pending := Some(Challenging(factors.totp[0].id, code));
        }
      case Err(m) =>
        error := m;
        loading, pending := false, None;
      case Threw =>
        error := UnexpectedError;
        loading, pending := false, None;
    }

    /** The challenge: an error ends the attempt with its message, a challenge
        id goes on to verification of the same factor and code. */
    method OnChallengeReply(reply: Reply<string>)
      requires Valid() && pending.Some? && pending.value.Challenging?
      modifies this
      ensures Valid() && verifyCode == old(verifyCode) && effects == old(effects)
      ensures reply.Ok? ==>
        && error == old(error)
        && pending == Some(Verifying(old(pending).value.factorId, reply.data, old(pending).value.code))
      ensures reply.Err? ==> error == reply.message && pending == None
      ensures reply.Threw? ==> error == UnexpectedError && pending == None
    {
      var step := pending.value;
      match reply
      case Ok(challengeId) =>
        pending := Some(Verifying(step.factorId, challengeId, step.code));
      case Err(m) =>
        error := m;
        loading, pending := false, None;
      case Threw =>
        error := UnexpectedError;
        loading, pending := false, None;
    }

    /** The verification: only an accepted code alerts success and calls the
        parent's `onSuccess`, when there is one. Every path ends the attempt. */
    method OnVerifyReply(reply: Reply<()>)
      requires Valid() && pending.Some? && pending.value.Verifying?
      modifies this
      ensures Valid() && !loading && pending == None && verifyCode == old(verifyCode)
      ensures reply.Ok? ==>
        && error == old(error)
        && effects == old(effects) + [SuccessAlert] + (if hasOnSuccess then [Invoke(OnSuccess)] else [])
      ensures reply.Err? ==> error == reply.message && effects == old(effects)
      ensures reply.Threw? ==> error == UnexpectedError && effects == old(effects)
    {
      match reply {
        case Ok(_) =>
          effects := effects + [SuccessAlert];
          if hasOnSuccess {
            effects := effects + [Invoke(OnSuccess)];
          }
        case Err(m) =>
          error := m;
        case Threw =>
          error := UnexpectedError;
      }
      loading, pending := false, None;
    }
  }
}
