# Mobile banking client: launch integrity report, sign-up, login and MFA screens

A Dafny model of the decision logic of an Android / React Native banking
client:

- **Launch integrity report** (`MainActivity.kt`). Five independent checks run when the app starts:
  - the package name;
  - the SHA-256 of the first signing certificate;
  - the SHA-256 of the installed APK, read in 8192-byte chunks;
  - the installer, checked against an allow-list with friendly names;
  - the class loader's type name.

  Each check yields one line of text. A line starts with ✅ or ❌, and an exception in a check also gives a ❌ line. The summary message counts the lines holding each mark and ends with the "compromised" banner exactly when some line holds ❌.
- **Sign-up screen** (`signup.jsx`). The email pattern `^[^\s@]+@[^\s@]+\.[^\s@]+$` is written as an explicit predicate, with a scan that is proved to decide it. Then come the ordered checks (email, at least 8 UTF-16 code units, not a common password, confirmation), the sign-up call, and the hand-over to MFA enrollment.
- **Login screen** (`index.jsx`):
  - the guard order;
  - sign-in followed by the TOTP factor lookup that forces enrollment;
  - the overlay-protection switch stored as `"true"` / `"false"`.
- **MFA wrapper** (`MFAWrapper.js`). The assurance-level rule decides when to ask for a code, and the render priority is spinner → verification → enrollment → content.
- **MFA verification and enrollment** (`AuthMFA.js`, `EnrollMFA.js`):
  - the trimmed code field and the blank-code guard;
  - the listFactors → challenge → verify chain, which stops at the first error;
  - the `finally` that clears `loading`;
  - the handling of the enrollment reply (factor id, QR code, errors).

## How the model works

Every platform or backend result is an input:

- The package name, the signing certificates, the installer, the loader name and the APK contents are observations. An observation is a value or an exception with its possibly-null message (`Integrity.Observed`).
- A backend reply is `Ok(data)`, `Err(message)` or `Threw`. `Threw` stands for a rejected promise.
- SHA-256 is a function parameter `sha256`.
- The list of common passwords is a parameter `weak`.

A React component with state becomes a `class` whose fields are its state variables. Effects that leave the component are appended to a field `effects`: alerts, navigation, storage writes, native-module calls and parent callbacks.

An `async` handler is split at each `await`:

- The handler method runs up to the first call and records the call in flight, with what the handler has captured, in `pending`.
- One method per reply runs the code that follows that `await`.

On the login, MFA verification and MFA enrollment screens, the class invariant `loading <==> pending.Some?` is how the model states that the `finally` clears `loading` on every exit. The sign-up screen's `handleSignup` has no `finally`, so its invariant is only `pending.Some? ==> loading`.

The APK stream is a class over an `array` buffer. `VerifyApkChecksum` keeps the source's `while` loop. `ShowIntegrityResults` builds the message by appending, as `buildString` does.

Files (one module each):

- `common.dfy`: `Option`, `Reply`, factors, effects
- `text.dfy`: JavaScript whitespace and `trim`, UTF-16 length, `contains`, decimal rendering
- `hex.dfy`: `bytesToHex` and its inverse
- `integrity.dfy`
- `email.dfy`
- `signup.dfy`
- `login.dfy`
- `mfa_wrapper.dfy`
- `codes.dfy`: the code field shared by the two MFA screens
- `auth_mfa.dfy`
- `enroll_mfa.dfy`

`verifyAPKChecksum` calls `fis.close()` only after a complete read (MainActivity.kt:112), so a read that throws leaves the stream open. `Integrity.VerifyApkChecksum` states exactly that: the stream ends closed exactly when reading did not fail.

## Model

| member | source | states |
|---|---|---|
| Integrity.MessageText | android/app/src/main/java/com/ahmadsyuaib/androidmobilebankingapp/MainActivity.kt:77 | `${e.message}` shows a present message as itself and a null message as "null", so a null message and the message "null" print the same. |
| Integrity.ErrorLine | android/app/src/main/java/com/ahmadsyuaib/androidmobilebankingapp/MainActivity.kt:76-78 | An exception line starts with ❌. It holds ✅ only if the exception message does, so with a mark-free message it has exactly the marks of an error. |
| Integrity.PackageVerdict | android/app/src/main/java/com/ahmadsyuaib/androidmobilebankingapp/MainActivity.kt:68-79 | The check errs exactly when reading the name threw, and passes exactly when the name read equals the expected one. |
| Integrity.PackageLine | android/app/src/main/java/com/ahmadsyuaib/androidmobilebankingapp/MainActivity.kt:68-79 | The line starts with its verdict's mark. It starts with ✅ exactly when the observed name equals the expected name. With mark-free text its marks are exactly those of the verdict, and a passing line has no ❌. |
| Integrity.FirstCertificateHash | android/app/src/main/java/com/ahmadsyuaib/androidmobilebankingapp/MainActivity.kt:85-91 | A hash exists exactly when the certificate list is non-null and non-empty. It is the upper-case hex of the SHA-256 of the first certificate. |
| Integrity.SignatureVerdict | android/app/src/main/java/com/ahmadsyuaib/androidmobilebankingapp/MainActivity.kt:81-100 | The check errs exactly when reading the certificates threw. It passes exactly when the list is non-null and non-empty and the hex SHA-256 of its first certificate equals the expected hash. |
| Integrity.SignatureLine | android/app/src/main/java/com/ahmadsyuaib/androidmobilebankingapp/MainActivity.kt:81-100 | The line starts with its verdict's mark, and a passing line has no ❌. The distinct "No signatures found" line appears exactly when the list is null or empty, and never for an exception or a mismatch. With mark-free text its marks are exactly those of the verdict. |
| Integrity.HashLine | android/app/src/main/java/com/ahmadsyuaib/androidmobilebankingapp/MainActivity.kt:91-96 | Once a certificate hash exists, the line passes exactly when the hash equals the expected one. It is never the no-signatures line. |
| Integrity.ChecksumVerdict | android/app/src/main/java/com/ahmadsyuaib/androidmobilebankingapp/MainActivity.kt:113-121 | The check errs exactly when opening or reading the APK threw, and passes exactly when the digest equals the expected APK hash. |
| Integrity.ChecksumLine | android/app/src/main/java/com/ahmadsyuaib/androidmobilebankingapp/MainActivity.kt:113-121 | The line starts with ✅ exactly when the digest was computed and equals the expected APK hash. Its marks follow the verdict. |
| Integrity.FriendlyName | android/app/src/main/java/com/ahmadsyuaib/androidmobilebankingapp/MainActivity.kt:130-135 | The three allowed installers are shown as Google Play Store, Amazon App Store and System Installer. Anything else is shown as itself. |
| Integrity.InstallerVerdict | android/app/src/main/java/com/ahmadsyuaib/androidmobilebankingapp/MainActivity.kt:124-143 | The check errs exactly when the platform call threw. It passes exactly when an installer is reported and it is one of the three allowed ones, so a missing installer fails. |
| Integrity.InstallerLine | android/app/src/main/java/com/ahmadsyuaib/androidmobilebankingapp/MainActivity.kt:124-143 | A null installer gives exactly the "sideloaded" line. An allowed installer gives the passing line with its friendly name. Any other installer gives the failing line that echoes it. An exception gives an error line, distinct from the sideloaded one. The marks follow the verdict. |
| Integrity.LoaderLine | android/app/src/main/java/com/ahmadsyuaib/androidmobilebankingapp/MainActivity.kt:145-156 | The line starts with ✅ exactly when the loader name contains `dalvik.system.PathClassLoader` at some position. |
| Integrity.LoaderVerdict | android/app/src/main/java/com/ahmadsyuaib/androidmobilebankingapp/MainActivity.kt:145-156 | The check errs exactly when reading the loader threw, and passes exactly when `dalvik.system.PathClassLoader` occurs in the loader's name. |
| Integrity.ApkStream.Read | android/app/src/main/java/com/ahmadsyuaib/androidmobilebankingapp/MainActivity.kt:109 | At the end of the file `read` gives -1, or throws if the stream fails there. Otherwise it copies the next 1 to buffer-length bytes of the file to the front of the buffer. |
| Integrity.ApkDigest | android/app/src/main/java/com/ahmadsyuaib/androidmobilebankingapp/MainActivity.kt:104-113 | The digest, when there is one, is hex. |
| Integrity.VerifyApkChecksum | android/app/src/main/java/com/ahmadsyuaib/androidmobilebankingapp/MainActivity.kt:102-122 | The chunks given to the digest are each 1 to 8192 bytes long, and joined they are the whole file in order. The line is the checksum line of the SHA-256 of the file, or an error line when opening or reading throws. The stream is closed exactly when the read did not fail. |
| Integrity.Report | android/app/src/main/java/com/ahmadsyuaib/androidmobilebankingapp/MainActivity.kt:58-66 | The report has exactly five lines, in the order package, signature, checksum, installer, loader. Each line is its check's line. |
| Integrity.Verdicts | android/app/src/main/java/com/ahmadsyuaib/androidmobilebankingapp/MainActivity.kt:58-66 | The five verdicts, in the order of the report. |
| Integrity.PerformIntegrityChecks | android/app/src/main/java/com/ahmadsyuaib/androidmobilebankingapp/MainActivity.kt:58-66 | All five checks run, whatever the earlier ones found. The collected list is the report, and the message is the summary built from it. |
| Integrity.CountMarked | android/app/src/main/java/com/ahmadsyuaib/androidmobilebankingapp/MainActivity.kt:172-173 | The count is at most the number of lines. It is zero exactly when no line holds the mark. |
| Integrity.Banner | android/app/src/main/java/com/ahmadsyuaib/androidmobilebankingapp/MainActivity.kt:176-180 | The compromised banner is shown exactly when failed > 0, and the all-passed banner exactly when failed = 0. |
| Integrity.MessageEnds | android/app/src/main/java/com/ahmadsyuaib/androidmobilebankingapp/MainActivity.kt:163-181 | The message `buildString` produces (`IntegrityMessage`) starts with the header and ends with the banner chosen by the ❌ count, followed by a newline. |
| Integrity.SummaryLineInjective | android/app/src/main/java/com/ahmadsyuaib/androidmobilebankingapp/MainActivity.kt:174 | `"Summary: $passed passed, $failed failed"` tells its counts apart: two summary lines are equal only for equal counts. |
| Integrity.ShowIntegrityResults | android/app/src/main/java/com/ahmadsyuaib/androidmobilebankingapp/MainActivity.kt:162-181 | The appended message is the header, each result followed by an empty line, the rule, the summary counts and the banner (`IntegrityMessage`). |
| Integrity.CountsFollowVerdicts | android/app/src/main/java/com/ahmadsyuaib/androidmobilebankingapp/MainActivity.kt:172-173 | If every line holds exactly its verdict's marks, the ✅ count is the number of passes and the ❌ count is the number of other verdicts. |
| Integrity.CountPassedBound | android/app/src/main/java/com/ahmadsyuaib/androidmobilebankingapp/MainActivity.kt:172-173 | The number of passes is at most the number of checks. It equals that number exactly when all checks pass. |
| Integrity.ReportLeads | android/app/src/main/java/com/ahmadsyuaib/androidmobilebankingapp/MainActivity.kt:58-66 | Every line of the report starts with its check's mark, and error lines start with ❌. |
| Integrity.ReportMarksExactly | android/app/src/main/java/com/ahmadsyuaib/androidmobilebankingapp/MainActivity.kt:68-156 | When the expected values and the observed text carry no mark, each line holds ✅ exactly when its check passed and ❌ exactly when it did not. |
| Integrity.PassingLinesUnmarked | android/app/src/main/java/com/ahmadsyuaib/androidmobilebankingapp/MainActivity.kt:72-149 | The passing lines of the first four checks hold no ❌. A passing loader line holds ❌ exactly when the loader name does. |
| Integrity.NoFailMarkAllPassed | android/app/src/main/java/com/ahmadsyuaib/androidmobilebankingapp/MainActivity.kt:172 | A ❌ count of zero over lines that start with their marks means that every check passed. |
| Integrity.AllClearIsSound | android/app/src/main/java/com/ahmadsyuaib/androidmobilebankingapp/MainActivity.kt:172-180 | The all-passed banner implies that all five checks passed, whatever the observed text holds. |
| Integrity.CompromisedExactly | android/app/src/main/java/com/ahmadsyuaib/androidmobilebankingapp/MainActivity.kt:172-180 | The compromised banner appears if and only if some check failed or errored, or the loader passed with a name holding ❌. |
| Integrity.CountsAreExact | android/app/src/main/java/com/ahmadsyuaib/androidmobilebankingapp/MainActivity.kt:172-174 | With mark-free text, "passed" counts the passing checks, "failed" counts all the others (errors included), and the two add up to five. |
| Integrity.ShippedBuildAlwaysCompromised | android/app/src/main/java/com/ahmadsyuaib/androidmobilebankingapp/MainActivity.kt:18-20 | With the placeholder hashes the activity ships with, the signature and checksum checks never pass. The report then holds at least two ❌ lines and ends with the compromised banner. |
| Integrity.TwoLeadingFailures | android/app/src/main/java/com/ahmadsyuaib/androidmobilebankingapp/MainActivity.kt:172 | Two lines that start with ❌ add two to the failure count. |
| Integrity.MixedVerdicts | android/app/src/main/java/com/ahmadsyuaib/androidmobilebankingapp/MainActivity.kt:58-66 | In the mixed launch scenario (only the signature differs), the verdicts are pass, fail, pass, pass, pass. |
| Integrity.FourPassedOneFailed | android/app/src/main/java/com/ahmadsyuaib/androidmobilebankingapp/MainActivity.kt:172-180 | In the mixed scenario the message counts 4 passed and 1 failed, the summary reads "Summary: 4 passed, 1 failed", and the compromised banner is shown. |
| Integrity.FourOneSummary | android/app/src/main/java/com/ahmadsyuaib/androidmobilebankingapp/MainActivity.kt:174 | Counts of 4 and 1 print as "Summary: 4 passed, 1 failed". |
| Integrity.AsciiUnmarked | android/app/src/main/java/com/ahmadsyuaib/androidmobilebankingapp/MainActivity.kt:72-154 | ASCII text holds neither mark, so the fixed text of the lines adds no mark. |
| Hex.Unsigned | android/app/src/main/java/com/ahmadsyuaib/androidmobilebankingapp/MainActivity.kt:159 | `%X` prints a signed byte as its value modulo 256, which lies in 0..255. |
| Hex.ByteToHex | android/app/src/main/java/com/ahmadsyuaib/androidmobilebankingapp/MainActivity.kt:159 | One byte prints as exactly two upper-case hex digits. |
| Hex.BytesToHex | android/app/src/main/java/com/ahmadsyuaib/androidmobilebankingapp/MainActivity.kt:158-160 | n bytes print as 2·n characters, all from 0-9A-F. |
| Hex.HexRoundTrip | android/app/src/main/java/com/ahmadsyuaib/androidmobilebankingapp/MainActivity.kt:158-160 | Decoding the hex of any bytes gives back those bytes. |
| Hex.HexDecodeSound | android/app/src/main/java/com/ahmadsyuaib/androidmobilebankingapp/MainActivity.kt:158-160 | Any string the decoder accepts is the hex of what it decodes to, so the decoder inverts `bytesToHex` on its image. |
| Hex.BytesToHexInjective | android/app/src/main/java/com/ahmadsyuaib/androidmobilebankingapp/MainActivity.kt:158-160 | Different byte sequences print differently. |
| Hex.DecodeByte | android/app/src/main/java/com/ahmadsyuaib/androidmobilebankingapp/MainActivity.kt:159 | The two digits of a byte are hex digits whose values recompose the byte. |
| Text.Trim | app/AuthMFA.js:74 | The result neither starts nor ends with JavaScript whitespace. It is empty exactly when the input is all whitespace. |
| Text.TrimIsInfix | app/AuthMFA.js:74 | The trimmed text is a slice of the input with only whitespace before and after it, so `trim` removes the surrounding whitespace and nothing else. |
| Text.TrimIdempotent | app/AuthMFA.js:74 | Trimming twice is trimming once. |
| Text.Utf16Length | app/signup.jsx:26 | `.length` counts between one and two code units per character. |
| Text.BmpLength | app/signup.jsx:26 | For a string inside the Basic Multilingual Plane (U+0000–U+FFFF), `.length` is the number of characters. |
| Text.ContainsIff | android/app/src/main/java/com/ahmadsyuaib/androidmobilebankingapp/MainActivity.kt:148 | `contains` holds exactly when the substring occurs at some position. |
| Text.ContainsChar | android/app/src/main/java/com/ahmadsyuaib/androidmobilebankingapp/MainActivity.kt:172-173 | Searching for a one-character string is membership of that character. |
| Text.DecimalRoundTrip | android/app/src/main/java/com/ahmadsyuaib/androidmobilebankingapp/MainActivity.kt:174 | The printed count reads back as the count, so different counts print differently. |
| Text.Decimal | android/app/src/main/java/com/ahmadsyuaib/androidmobilebankingapp/MainActivity.kt:174 | A count prints as decimal digits with no leading zero. |
| Text.Repeat | android/app/src/main/java/com/ahmadsyuaib/androidmobilebankingapp/MainActivity.kt:165 | `"=".repeat(35)` is 35 copies of the character. |
| EmailRule.IndexOf | app/signup.jsx:18-19 | The position found is that of the first occurrence. None means the character is absent. |
| EmailRule.AcceptsEmailIff | app/signup.jsx:18-19 | The left-to-right scan (split at the first `@`, then check the domain) accepts exactly the strings the regular expression matches. |
| EmailRule.AcceptsEmailSound | app/signup.jsx:18-19 | What the scan accepts, the pattern matches. |
| EmailRule.AcceptsEmailComplete | app/signup.jsx:18-19 | What the pattern matches, the scan accepts. |
| EmailRule.MatchedAtIsFirst | app/signup.jsx:18-19 | In a match, the `@` is the first `@` of the string. |
| EmailRule.DomainSplit | app/signup.jsx:18-19 | A segment split at an inner dot is two segments around it, and back. |
| EmailRule.ValidEmailShape | app/signup.jsx:18-19 | A valid address has exactly one `@`, not at either end, and no whitespace at all. |
| EmailRule.EmptyIsInvalid | app/index.jsx:20-21 | The empty string is rejected. |
| EmailRule.SimpleAddressIsValid | app/index.jsx:20-21 | "a@b.c" is accepted. |
| EmailRule.JoinedSegmentsAreValid | app/signup.jsx:18-19 | Any three segments of `[^\s@]+` joined by `@` and a dot are accepted, so the last part may itself hold dots ("a@b..c"). |
| EmailRule.DotAfterAtIsInvalid | app/index.jsx:20-21 | "a@.c" is rejected: the name between `@` and the dot is empty. |
| Signup.SignupGate | app/signup.jsx:21-39 | The checks pass exactly when the email is valid, the password has at least 8 code units, is not in the common list and equals the confirmation. "Invalid email" is reported exactly when the email is invalid. "Too short" is reported exactly when the email is valid and the password has fewer than 8 code units. "Too common" is reported exactly when those two checks pass and the password is in the list. "Do not match" is reported exactly when those three checks pass and the confirmation differs. |
| Signup.ShortPasswordIgnoresList | app/signup.jsx:26-34 | A short password is rejected as too short before the list is consulted, so the outcome is the same for any list. |
| Signup.CommonPasswordRejected | app/signup.jsx:26-39 | A common password of 8 or more code units is rejected as too common whatever the confirmation, because the list is consulted before the confirmation. |
| Signup.EmailCheckedFirst | app/signup.jsx:21-24 | An invalid email is reported whatever the passwords are, so no password alert comes with it. |
| Signup.BmpPasswordLength | app/signup.jsx:26-29 | With a valid email and a password inside the Basic Multilingual Plane, the password is rejected as too short exactly when it has fewer than 8 characters. |
| Signup.SignupScreen.SetEmail | app/signup.jsx:94 | Typing into the email field sets `email` and changes nothing else. |
| Signup.SignupScreen.SetPassword | app/signup.jsx:102 | Typing into the password field sets `password` and changes nothing else. |
| Signup.SignupScreen.SetConfirmPassword | app/signup.jsx:110 | Typing into the confirmation field sets `confirmPassword` and changes nothing else. |
| Signup.SignupScreen.HandleSignup | app/signup.jsx:17-46 | Sign-up is called, with `loading` set, exactly when all four checks pass. Otherwise the first failing check's alert is the only effect. |
| Signup.SignupScreen.OnSignUpReply | app/signup.jsx:48-64 | An error clears `loading`, alerts the message and leaves `signupComplete` as it was. Success clears `loading`, sets `signupComplete` and shows the success alert with Continue. A rejected call leaves `loading` set. |
| Signup.SignupScreen.PressContinue | app/signup.jsx:57-61 | Enrollment is shown only through the Continue action. |
| Signup.SignupScreen.OnEnrollmentComplete | app/signup.jsx:67-70 | Completing hides enrollment and navigates to /home. |
| Signup.SignupScreen.OnEnrollmentCancel | app/signup.jsx:72-75 | Cancelling hides enrollment and navigates to /home. |
| Login.LoginGuard | app/index.jsx:20-31 | "Invalid Email" is reported exactly when the email does not match. "Fill in all fields" is reported exactly when the email matches and the password is empty. Login proceeds exactly when both are fine. |
| Login.EmptyEmailIsInvalid | app/index.jsx:23-31 | An empty email always gets "Invalid Email", whatever the password. |
| Login.RestoredFlag | app/index.jsx:97 | A stored value hides the overlay exactly when it is "true". |
| Login.BoolText | app/index.jsx:110 | `toString` of a boolean is "true" or "false". |
| Login.RestoreRoundTrip | app/index.jsx:94-111 | Restoring what the toggle stored gives back the stored flag. |
| Login.LoginScreen.SetEmail | app/index.jsx:142 | Typing into the email field sets `email` and changes nothing else. |
| Login.LoginScreen.SetPassword | app/index.jsx:150 | Typing into the password field sets `password` and changes nothing else. |
| Login.LoginScreen.HandleLogin | app/index.jsx:19-36 | A failed guard shows its alert and makes no sign-in call. Otherwise `loading` is set and sign-in is in flight. |
| Login.LoginScreen.OnSignInReply | app/index.jsx:36-46 | A sign-in error alerts its message and ends the attempt with `loading` cleared. A rejection shows the unexpected-error alert. Success goes on to list factors. |
| Login.LoginScreen.OnListFactorsReply | app/index.jsx:48-70 | Zero TOTP factors set the MFA-setup step and show enrollment. One or more navigate to /home. An error alerts "Unable to check MFA status". `loading` is false on every path. |
| Login.LoginScreen.OnEnrollmentComplete | app/index.jsx:73-77 | Completing hides enrollment, returns to the login step and navigates home. |
| Login.LoginScreen.OnEnrollmentCancel | app/index.jsx:79-86 | Cancelling only shows the "MFA Required" alert and changes no state. |
| Login.LoginScreen.ToggleOverlay | app/index.jsx:106-111 | The flag is negated and passed to the native module when there is one. Its text is stored under "overlayHidden", and reading that text back gives the new flag. |
| Login.LoginScreen.RestoreOverlaySetting | app/index.jsx:94-101 | Nothing stored leaves the flag alone. A stored value sets the flag to whether the value is "true" and passes it to the native module. |
| MfaWrapper.NeedsVerification | app/MFAWrapper.js:25 | Verification is needed exactly when the next level is aal2 and the current level is not. |
| MfaWrapper.VerifiedSessionNotAsked | app/MFAWrapper.js:25-27 | A session already at aal2, or one whose next level is not aal2, is never asked for a code. |
| MfaWrapper.Render | app/MFAWrapper.js:51-73 | Spinner exactly when not ready; then verification if asked; then enrollment; otherwise content. |
| MfaWrapper.Wrapper.CheckMFAStatus | app/MFAWrapper.js:12-16 | The mount effect starts the assurance-level call; the wrapper stays not ready while it is in flight. |
| MfaWrapper.Wrapper.OnAssuranceReply | app/MFAWrapper.js:14-32 | The verification screen is asked for exactly when a successful reply needs verification; an error or an exception leaves it off. The wrapper is ready on every path. |
| MfaWrapper.Wrapper.HandleMFASuccess | app/MFAWrapper.js:38-41 | Both flags are cleared. |
| MfaWrapper.Wrapper.HandleEnrollSuccess | app/MFAWrapper.js:43-45 | Only the enrollment flag is cleared. |
| MfaWrapper.Wrapper.HandleEnrollCancel | app/MFAWrapper.js:47-49 | Only the enrollment flag is cleared. |
| MfaWrapper.EnrollScreenUnreachable | app/MFAWrapper.js:10 | No path sets the enrollment flag, so the wrapper never renders the enrollment screen. |
| MfaWrapper.ViewAfterCheck | app/MFAWrapper.js:25-73 | After the check, the wrapper shows the verification screen exactly when the levels need it, and the content otherwise. |
| Codes.SubmitEnabled | app/AuthMFA.js:82 | The Submit button is enabled exactly when not loading and the trimmed code is non-empty. Enable MFA (app/EnrollMFA.js:121) has the same condition. |
| Codes.TypedCodeGuard | app/AuthMFA.js:74 | The handler's own trim changes nothing in the code the field kept, so that code passes the guard exactly when what was typed is not blank. |
| AuthMfa.AuthScreen.OnChangeText | app/AuthMFA.js:74 | The field keeps the trimmed text: what was typed minus its surrounding whitespace and nothing else (`Text.TrimIsInfix`). |
| AuthMfa.AuthScreen.OnSubmitClicked | app/AuthMFA.js:10-20 | A blank code sets "Please enter the verification code" and makes no call. Otherwise `error` is cleared, `loading` is set and the factors are listed with the captured code. |
| AuthMfa.AuthScreen.OnListFactorsReply | app/AuthMFA.js:20-33 | An error's message becomes `error` and ends the attempt. No TOTP factor gives "No TOTP factors found!…" and ends it. Otherwise the first TOTP factor is challenged with the same code. |
| AuthMfa.AuthScreen.OnChallengeReply | app/AuthMFA.js:33-44 | An error's message becomes `error` and ends the attempt. Otherwise the same factor and code are verified against the new challenge. |
| AuthMfa.AuthScreen.OnVerifyReply | app/AuthMFA.js:40-58 | Only an accepted code shows the success alert and calls `onSuccess`, when one was given. An error sets its message, and a rejection sets "An unexpected error occurred". `loading` is false on every exit. |
| EnrollMfa.EnrollScreen.CanCancel | app/EnrollMFA.js:128 | Cancel is enabled exactly when no enable call is in flight. |
| EnrollMfa.EnrollScreen.StartEnrollment | app/EnrollMFA.js:51-56 | The mount effect starts the enrollment of a TOTP factor and changes nothing else. |
| EnrollMfa.EnrollScreen.OnEnrollReply | app/EnrollMFA.js:53-78 | An error sets its message. Success stores the factor id, then shows a present, non-empty QR code or sets "QR code not received from server". An exception sets "Failed to initialize MFA enrollment". |
| EnrollMfa.EnrollScreen.OnChangeText | app/EnrollMFA.js:112 | The field keeps the trimmed text: what was typed minus its surrounding whitespace and nothing else (`Text.TrimIsInfix`). |
| EnrollMfa.EnrollScreen.OnEnableClicked | app/EnrollMFA.js:13-23 | A blank code sets "Please enter the verification code" and makes no call. Otherwise `error` is cleared, `loading` is set and the stored factor id is challenged with the code. |
| EnrollMfa.EnrollScreen.OnChallengeReply | app/EnrollMFA.js:23-34 | An error's message becomes `error` and ends the attempt. Otherwise the same factor and code are verified against the new challenge. |
| EnrollMfa.EnrollScreen.OnVerifyReply | app/EnrollMFA.js:30-48 | Only an accepted code shows the success alert and calls `onEnrolled`. An error sets its message, and a rejection sets "An unexpected error occurred". `loading` is false on every exit. |
| EnrollMfa.EnrollScreen.OnCancelPressed | app/EnrollMFA.js:124-129 | Cancel calls `onCancelled`. |

How the chain reaches its callback: in both MFA screens a success callback is appended only by `OnVerifyReply` on `Ok`. That method requires a verification in flight, which only a successful challenge reply creates. In `AuthMFA` a challenge is in flight only after a successful factor list with a TOTP factor. Every other reply method leaves `effects` unchanged, so the callback runs only when every step succeeded.

## Left out

- SHA-256 (`MessageDigest.getInstance`, `update`, `digest`) is the parameter `sha256`. The model states that the digest is given exactly the file's bytes in order, not how it hashes them.
- `packageManager`, `applicationInfo`, `FileInputStream` opening and `classLoader` are platform calls. Their results, or their exceptions, are inputs.
- The dialog of `showIntegrityResults` is not modelled: `AlertDialog`, `runOnUiThread` and the `killProcess` action are UI and process control. Only its message text is.
- `invokeDefaultOnBackPressed`, `onCreate` and the React activity delegate are framework glue with no decision logic.
- `MainApplication.kt`, `OverlayWindowModule.kt` and `OverlayWindowPackage.kt` are bootstrap plus one platform window call. They are not part of this model. The overlay call appears only as the `SetHideOverlay` effect.
- `home.jsx` (a sign-out and a redirect) is not part of this model.
- The runtime threat monitor and its debounced alert are not part of this model, because their source is not among the files modelled.
- `lib/weakPasswords` is outside the modelled files, so the list is the parameter `weak`.
- Supabase, AsyncStorage, `Alert`, the router and the native modules are not called. Their replies are inputs, and their calls are entries of `effects`.
- `showToast` on the login screen is out: it is a single native call with no logic.
- React rendering, styles, button titles and `console` logging are out. Only the enabled/disabled conditions of the buttons are modelled.
- The `maxLength={6}` and `keyboardType="numeric"` of the code inputs are not modelled. They are input-widget limits that the handlers do not check.
- Integrity.ApkStream.Read: the number of bytes each `read` returns is chosen nondeterministically between 1 and the buffer size. A failing stream throws only after delivering all its bytes, so a failure partway through the file is modelled by a shorter file.
- Integrity.VerifyApkChecksum: the source closes the stream only when the whole file was read, and the model states exactly that. It does not claim that the handle is released on every path.
- Integrity.ReportMarksExactly and Integrity.CountsAreExact need the expected values and the observed text to hold no ✅/❌ character. The source echoes those strings into its lines, and such a character would change the counts. Integrity.AllClearIsSound holds without that assumption.
- Signup.SignupScreen.OnSignUpReply: `handleSignup` has no `try`/`finally`, so a rejected `signUp` promise leaves `loading` set. The model keeps it so.
- AuthMfa.AuthScreen.OnVerifyReply and EnrollMfa.EnrollScreen.OnVerifyReply: an exception thrown by the parent's `onSuccess` or `onEnrolled` callback, which the `catch` would also turn into "An unexpected error occurred", is not modelled. The callbacks' code is in the parent components.
- A reply whose `data` is `null` although no error was reported (which would make `data.totp` or `data.id` throw into the `catch`) is not modelled separately. The `Threw` reply covers the `catch` branch.
