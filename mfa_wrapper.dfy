/** `MFAWrapper`: asks the backend once for the session's assurance levels,
    then shows a spinner, the verification screen, the enrollment screen or
    the wrapped content. */
module MfaWrapper {
  import opened Common

  /** The `data` of `getAuthenticatorAssuranceLevel`; a level may be null. */
  datatype AssuranceLevels = AssuranceLevels(currentLevel: Option<string>, nextLevel: Option<string>)

  const Aal2 := "aal2"

  /** The test of `checkMFAStatus`: the session must reach `aal2` and is not
      there yet. */
  function NeedsVerification(levels: AssuranceLevels): (b: bool)
    ensures b <==> levels.nextLevel == Some(Aal2) && levels.currentLevel != Some(Aal2)
  {
    levels.nextLevel == Some(Aal2) && levels.nextLevel != levels.currentLevel
  }

  /** A session already at `aal2`, or one that cannot go further, is never
      asked for a code. */
  lemma VerifiedSessionNotAsked(current: Option<string>, next: Option<string>)
    requires current == Some(Aal2) || next != Some(Aal2)
    ensures !NeedsVerification(AssuranceLevels(current, next))
  {
  }

  /** What the wrapper renders. */
  datatype View = Spinner | VerifyScreen | EnrollScreen | Content

  /** The order of the `if`s in the render: not ready shows the spinner,
      then verification, then enrollment, then the children. */
  function Render(readyToShow: bool, showMFAScreen: bool, showEnrollScreen: bool): (v: View)
    ensures v == Spinner <==> !readyToShow
    ensures v == VerifyScreen <==> readyToShow && showMFAScreen
    ensures v == EnrollScreen <==> readyToShow && !showMFAScreen && showEnrollScreen
    ensures v == Content <==> readyToShow && !showMFAScreen && !showEnrollScreen
  {
    if !readyToShow then Spinner
    else if showMFAScreen then VerifyScreen
    else if showEnrollScreen then EnrollScreen
    else Content
  }

  /** The state of the component. `checking` says that the assurance call
      started by the mount effect is in flight. */
  class Wrapper {
    var readyToShow: bool
    var showMFAScreen: bool
    var showEnrollScreen: bool
    var checking: bool

    /** Nothing ever sets `showEnrollScreen`, so it keeps its initial false;
        the wrapper is not ready while the check is in flight; and the
        verification screen is only asked for by a finished check. */
    ghost predicate Valid()
      reads this
    {
      && !showEnrollScreen
      && (checking ==> !readyToShow && !showMFAScreen)
      && (showMFAScreen ==> readyToShow)
    }

    constructor ()
      ensures Valid() && !readyToShow && !showMFAScreen && !showEnrollScreen && !checking
    {
      readyToShow, showMFAScreen, showEnrollScreen, checking := false, false, false, false;
    }

    /** What the component renders now. */
    function Shown(): View
      reads this
    {
      Render(readyToShow, showMFAScreen, showEnrollScreen)
    }

    /** The mount effect calls `checkMFAStatus`, which awaits the levels. */
    method CheckMFAStatus()
      requires Valid() && !checking && !readyToShow
      modifies this
      ensures Valid() && checking
      ensures readyToShow == old(readyToShow) && showMFAScreen == old(showMFAScreen)
      ensures showEnrollScreen == old(showEnrollScreen)
    {
      checking := true;
    }

    /** The rest of `checkMFAStatus`: only a successful reply that needs
        verification asks for the code; an error reply or an exception is
        only logged; the `finally` makes the wrapper ready on every path. */
    method OnAssuranceReply(reply: Reply<AssuranceLevels>)
      requires Valid() && checking
      modifies this
      ensures Valid() && !checking && readyToShow
      ensures showMFAScreen <==> reply.Ok? && NeedsVerification(reply.data)
      ensures showEnrollScreen == old(showEnrollScreen)
    {
      match reply {
        case Ok(levels) =>
          if NeedsVerification(levels) {
            showMFAScreen := true;
          }
        case Err(_) =>
        case Threw =>
      }
      checking := false;
      readyToShow := true;
    }

    /** `handleMFASuccess`: both screens are dropped. */
    method HandleMFASuccess()
      requires Valid()
      modifies this
      ensures Valid() && !showMFAScreen && !showEnrollScreen
      ensures readyToShow == old(readyToShow) && checking == old(checking)
    {
      showMFAScreen := false;
      showEnrollScreen := false;
    }

    /** `handleEnrollSuccess`: only the enrollment screen is dropped. */
    method HandleEnrollSuccess()
      requires Valid()
      modifies this
      ensures Valid() && !showEnrollScreen
      ensures readyToShow == old(readyToShow) && showMFAScreen == old(showMFAScreen) && checking == old(checking)
    {
      showEnrollScreen := false;
    }

    /** `handleEnrollCancel`: the same as enrollment success. */
    method HandleEnrollCancel()
      requires Valid()
      modifies this
      ensures Valid() && !showEnrollScreen
      ensures readyToShow == old(readyToShow) && showMFAScreen == old(showMFAScreen) && checking == old(checking)
    {
      showEnrollScreen := false;
    }
  }

  /** Because no path sets `showEnrollScreen`, the wrapper never renders the
      enrollment screen. */
  lemma EnrollScreenUnreachable(w: Wrapper)
    requires w.Valid()
    ensures w.Shown() != EnrollScreen
  {
  }

  /** Once the check has answered, the wrapper shows the verification screen
      exactly when the levels need it, and the content otherwise. */
  lemma ViewAfterCheck(w: Wrapper, reply: Reply<AssuranceLevels>)
    requires w.Valid() && w.readyToShow && !w.checking
    requires w.showMFAScreen <==> reply.Ok? && NeedsVerification(reply.data)
    ensures w.Shown() == (if reply.Ok? && NeedsVerification(reply.data) then VerifyScreen else Content)
  {
  }
}
