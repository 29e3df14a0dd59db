/** `EnrollMFA`: enrolls a new TOTP factor when the screen mounts, shows its
    QR code, and enables the factor once a first code from the authenticator
    app is verified against a challenge for it. */
module EnrollMfa {
  import opened Common
  import opened Text
  import opened Codes

  const QrMissingError := "QR code not received from server"
  const EnrollFailedError := "Failed to initialize MFA enrollment"
  const EnabledAlert := ShowAlert("Success", "MFA has been enabled successfully!")
  const OnEnrolled := "onEnrolled"
  const OnCancelled := "onCancelled"

  /** The `data` of a successful `enroll`: the new factor's id and, when the
      server sent one, `totp.qr_code` (`None` when `totp` or the code is
      missing). */
  datatype EnrollData = EnrollData(id: string, qrCode: Option<string>)

  /** JavaScript truthiness of `data.totp && data.totp.qr_code`: present and
      not the empty string. */
  predicate HasQrCode(d: EnrollData) {
    d.qrCode.Some? && d.qrCode.value != ""
  }

  /** Which awaited call of `onEnableClicked` is in flight, with the factor id
      and code the handler captured when it was pressed. */
  datatype Step =
    | Challenging(factorId: string, code: string)
    | Verifying(factorId: string, challengeId: string, code: string)

  /** The state of the component. `enrolling` says that the `enroll` call of
      the mount effect is in flight; `pending`, that of the Enable button. */
  class EnrollScreen {
    var factorId: string
    var qrSvg: string
    var verifyCode: string
    var error: string
    var loading: bool
    var enrolling: bool
    var pending: Option<Step>
    var effects: seq<Effect>

    /** The `finally` of `onEnableClicked` clears `loading` on every exit, and
        the code sent for verification is never blank. */
    ghost predicate Valid()
      reads this
    {
      && (loading <==> pending.Some?)
      && (pending.Some? ==> CodeEntered(pending.value.code))
    }

    constructor ()
      ensures Valid()
      ensures factorId == "" && qrSvg == "" && verifyCode == "" && error == ""
      ensures !loading && !enrolling && pending == None && effects == []
    {
      factorId, qrSvg, verifyCode, error := "", "", "", "";
      loading, enrolling := false, false;
      pending := None;
      effects := [];
    }

    /** The Cancel button: `disabled={loading}`. */
    function CanCancel(): (b: bool)
      requires Valid()
      reads this
      ensures b <==> pending.None?
    {
      !loading
    }

    /** The mount effect starts the enrollment of a TOTP factor. */
    method StartEnrollment()
      requires Valid() && !enrolling
      modifies this
      ensures Valid() && enrolling
      ensures factorId == old(factorId) && qrSvg == old(qrSvg) && verifyCode == old(verifyCode)
      ensures error == old(error) && loading == old(loading) && pending == old(pending) && effects == old(effects)
    {
      enrolling := true;
    }

    /** The enrollment answer: an error reply shows its message; success keeps
        the factor id and shows the QR code, or says that none came; a
        rejection shows that enrollment could not start. `loading` is not
        touched. */
    method OnEnrollReply(reply: Reply<EnrollData>)
      requires Valid() && enrolling
      modifies this
      ensures Valid() && !enrolling
      ensures reply.Ok? ==> factorId == reply.data.id
      ensures reply.Ok? && HasQrCode(reply.data) ==> qrSvg == reply.data.qrCode.value && error == old(error)
      ensures reply.Ok? && !HasQrCode(reply.data) ==> qrSvg == old(qrSvg) && error == QrMissingError
      ensures !reply.Ok? ==> factorId == old(factorId) && qrSvg == old(qrSvg)
      ensures reply.Err? ==> error == reply.message
      ensures reply.Threw? ==> error == EnrollFailedError
      ensures verifyCode == old(verifyCode) && loading == old(loading)
      ensures pending == old(pending) && effects == old(effects)
    {
      match reply {
        case Ok(data) =>
          factorId := data.id;
          if HasQrCode(data) {
            qrSvg := data.qrCode.value;
          } else {
            error := QrMissingError;
          }
        case Err(m) =>
          error := m;
        case Threw =>
          error := EnrollFailedError;
      }
      enrolling := false;
    }

    method OnChangeText(text: string)
      modifies this
      ensures verifyCode == Trim(text)
      ensures factorId == old(factorId) && qrSvg == old(qrSvg) && error == old(error)
      ensures loading == old(loading) && enrolling == old(enrolling)
      ensures pending == old(pending) && effects == old(effects)
    {
      verifyCode := Trim(text);
    }

    /** `onEnableClicked` up to the challenge (the button is disabled while
        loading). A blank code only shows the error; otherwise the factor id
        the screen holds now is challenged with the code. */
    method OnEnableClicked()
      requires Valid() && !loading
      modifies this
      ensures Valid()
      ensures !CodeEntered(verifyCode) ==> error == EmptyCodeError && pending == None
      ensures CodeEntered(verifyCode) ==> error == "" && pending == Some(Challenging(factorId, verifyCode))
      ensures factorId == old(factorId) && qrSvg == old(qrSvg) && verifyCode == old(verifyCode)
      ensures enrolling == old(enrolling) && effects == old(effects)
    {
      if !CodeEntered(verifyCode) {
        error := EmptyCodeError;
        return;
      }
      error := "";
      loading := true;
      pending := Some(Challenging(factorId, verifyCode));
    }

    /** The challenge: an error ends the attempt with its message, a challenge
        id goes on to verify the same factor and code. */
    method OnChallengeReply(reply: Reply<string>)
      requires Valid() && pending.Some? && pending.value.Challenging?
      modifies this
      ensures Valid() && effects == old(effects)
      ensures reply.Ok? ==>
        && error == old(error)
        && pending == Some(Verifying(old(pending).value.factorId, reply.data, old(pending).value.code))
      ensures reply.Err? ==> error == reply.message && pending == None
      ensures reply.Threw? ==> error == UnexpectedError && pending == None
      ensures factorId == old(factorId) && qrSvg == old(qrSvg) && verifyCode == old(verifyCode)
      ensures enrolling == old(enrolling)
    {
      var step := pending.value;
      match reply
      case Ok(challengeId) =>
        pending := Some(Verifying(step.factorId, challengeId, step.code));
      case Err(m) =>
        error := m;
        loading, pending := false, None;
      case Threw =>
        error := UnexpectedError;
        loading, pending := false, None;
    }

    /** The verification: only an accepted code alerts success and hands back
        to the parent through `onEnrolled`. Every path ends the attempt. */
    method OnVerifyReply(reply: Reply<()>)
      requires Valid() && pending.Some? && pending.value.Verifying?
      modifies this
      ensures Valid() && !loading && pending == None
      ensures reply.Ok? ==> error == old(error) && effects == old(effects) + [EnabledAlert, Invoke(OnEnrolled)]
      ensures reply.Err? ==> error == reply.message && effects == old(effects)
      ensures reply.Threw? ==> error == UnexpectedError && effects == old(effects)
      ensures factorId == old(factorId) && qrSvg == old(qrSvg) && verifyCode == old(verifyCode)
      ensures enrolling == old(enrolling)
    {
      match reply {
        case Ok(_) =>
          effects := effects + [EnabledAlert, Invoke(OnEnrolled)];
        case Err(m) =>
          error := m;
        case Threw =>
          error := UnexpectedError;
      }
      loading, pending := false, None;
    }

    /** The Cancel button hands back to the parent through `onCancelled`. */
    method OnCancelPressed()
      requires Valid() && CanCancel()
      modifies this
      ensures Valid() && effects == old(effects) + [Invoke(OnCancelled)]
      ensures factorId == old(factorId) && qrSvg == old(qrSvg) && verifyCode == old(verifyCode)
      ensures error == old(error) && loading == old(loading) && enrolling == old(enrolling)
      ensures pending == old(pending)
    {
      effects := effects + [Invoke(OnCancelled)];
    }
  }
}
