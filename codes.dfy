/** The verification-code field and submit guard shared by the two MFA
    screens: the field trims what is typed, the button is enabled only with a
    code and while nothing is loading, and the handler turns down a blank
    code. */
module Codes {
  import opened Text

  const EmptyCodeError := "Please enter the verification code"
  const UnexpectedError := "An unexpected error occurred"

  /** `!verifyCode.trim()` is false: something other than whitespace was
      entered. */
  predicate CodeEntered(code: string) {
    !IsBlank(code)
  }

  /** `disabled={loading || !verifyCode.trim()}`, negated. */
  function SubmitEnabled(loading: bool, code: string): (b: bool)
    ensures b <==> !loading && Trim(code) != []
  {
    !loading && CodeEntered(code)
  }

  /** The field keeps `text.trim()`; the handler's own `trim()` changes
      nothing in such a code, so it passes the guard exactly when it is
      non-empty, that is when what was typed is not blank. */
  lemma TypedCodeGuard(text: string)
    ensures Trim(Trim(text)) == Trim(text)
    ensures CodeEntered(Trim(text)) <==> Trim(text) != []
    ensures Trim(text) != [] <==> !IsBlank(text)
  {
    TrimIdempotent(text);
  }
}
