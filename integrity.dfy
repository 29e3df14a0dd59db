/** The launch integrity report of `MainActivity`: five independent checks,
    each turned into one line of text that starts with a pass or a fail mark,
    and the summary dialog text that counts those marks and picks a banner.
    Every platform result (package name, signing certificates, the APK file,
    the installer, the class loader) is an input; SHA-256 is the parameter
    `sha256`. */
module Integrity {
  import opened Common
  import opened Text
  import opened Hex

  /** The marks the report lines start with: U+2705 and U+274C. */
  const PassMark: char := '\U{2705}'
  const FailMark: char := '\U{274C}'

  /** The identity the running app is compared against. */
  datatype Expected = Expected(packageName: string, signatureHash: string, apkHash: string)

  /** The values built into the shipped activity. The two hashes are
      placeholders that were never filled in. */
  const Shipped := Expected(
    "com.ahmadsyuaib.androidmobilebankingapp",
    "place_expected_signature_hash_here",
    "place_expected_apk_hash_here")

  const AllowedInstallers: set<string> :=
    {"com.android.vending", "com.amazon.venezia", "com.android.packageinstaller"}

  const PathClassLoader := "dalvik.system.PathClassLoader"

  /** The size of the read buffer of the checksum loop. */
  const BufferSize := 8192

  /** What a platform call gave a check: a value, or an exception with its
      message (which Kotlin allows to be null). */
  datatype Observed<T> = Got(value: T) | Raised(message: Option<string>)

  /** The platform results the four stateless checks read. */
  datatype LaunchObservations = LaunchObservations(
    packageName: Observed<string>,
    signatures: Observed<Option<seq<seq<JByte>>>>,
    installer: Observed<Option<string>>,
    loaderName: Observed<string>)

  /** The three kinds of result a check has. */
  datatype Verdict = Passed | Failed | Errored

  /** The mark a line of the given verdict starts with: errors are marked as
      failures. */
  function Mark(v: Verdict): char {
    if v == Passed then PassMark else FailMark
  }

  /** Neither mark occurs in `s`. */
  predicate Unmarked(s: string) {
    PassMark !in s && FailMark !in s
  }

  predicate ExpectedUnmarked(exp: Expected) {
    Unmarked(exp.packageName) && Unmarked(exp.signatureHash) && Unmarked(exp.apkHash)
  }

  /** How `${e.message}` renders an exception's message. */
  function MessageText(m: Option<string>): (t: string)
    ensures m.Some? ==> t == m.value
    ensures t == "null" <==> m == None || m == Some("null")
  {
    match m
    case Some(s) => s
    case None => "null"
  }

  /** The text an observed string or an exception message puts into a line
      carries no mark. */
  predicate ObservedUnmarked(o: Observed<string>) {
    match o
    case Got(v) => Unmarked(v)
    case Raised(m) => Unmarked(MessageText(m))
  }

  /** Only an exception's message is echoed from these observations. */
  predicate MessageUnmarked<T>(o: Observed<T>) {
    o.Raised? ==> Unmarked(MessageText(o.message))
  }

  /** The line starts with the verdict's mark. */
  predicate LeadsWith(line: string, v: Verdict) {
    |line| > 0 && line[0] == Mark(v)
  }

  /** The line holds the pass mark exactly when the verdict is a pass and the
      fail mark exactly when it is not. */
  predicate MarksExactly(line: string, v: Verdict) {
    (PassMark in line <==> v == Passed) && (FailMark in line <==> v != Passed)
  }

  // ---------------------------------------------------------------------
  // The fixed text of the lines. Each piece is plain ASCII, which is proved
  // once here so that the line functions need not search the literals.
  // ---------------------------------------------------------------------

  predicate IsAscii(s: string) {
    forall k | 0 <= k < |s| :: s[k] < '\U{80}'
  }

  lemma AsciiUnmarked(s: string)
    requires IsAscii(s)
    ensures Unmarked(s)
  {
  }

  // The pieces the Kotlin string templates are made of.
  const PackageName := " Package Name"
  const SignatureHash := " Signature Hash"
  const ApkChecksum := " APK Checksum"
  const Installer := " Installer"
  const ClassLoader := " Class Loader"
  const Signature := " Signature"
  const PassedText := ": PASSED"
  const FailedText := ": FAILED"
  const ErrorText := ": ERROR - "
  const ExpectedText := "\n   Expected: "
  const ActualText := "\n   Actual: "
  const HashText := "\n   Hash: "
  const SourceText := "\n   Source: "
  const TypeText := "\n   Type: "
  const NoSignaturesText := " - No signatures found"
  const SideloadedText := " - App was sideloaded (no installer)"
  const OfficialStore := "Official store"
  const ExpectedLoader := "PathClassLoader"

  lemma NamesAscii()
    ensures IsAscii(PackageName) && IsAscii(SignatureHash) && IsAscii(ApkChecksum)
    ensures IsAscii(Installer) && IsAscii(ClassLoader) && IsAscii(Signature)
  {
  }

  lemma PhrasesAscii()
    ensures IsAscii(PassedText) && IsAscii(FailedText) && IsAscii(ErrorText)
    ensures IsAscii(ExpectedText) && IsAscii(ActualText) && IsAscii(HashText)
    ensures IsAscii(SourceText) && IsAscii(TypeText)
  {
  }

  lemma SentencesAscii()
    ensures IsAscii(NoSignaturesText) && IsAscii(SideloadedText)
  {
  }

  lemma WordsAscii()
    ensures IsAscii(OfficialStore) && IsAscii(ExpectedLoader) && IsAscii("null")
  {
  }

  lemma StoreNamesAscii()
    ensures IsAscii("Google Play Store") && IsAscii("Amazon App Store") && IsAscii("System Installer")
  {
  }

  /** No fixed piece of a line carries a mark. */
  lemma FixedTextUnmarked()
    ensures Unmarked(PackageName) && Unmarked(SignatureHash) && Unmarked(ApkChecksum)
    ensures Unmarked(Installer) && Unmarked(ClassLoader) && Unmarked(Signature)
    ensures Unmarked(PassedText) && Unmarked(FailedText) && Unmarked(ErrorText)
    ensures Unmarked(ExpectedText) && Unmarked(ActualText) && Unmarked(HashText)
    ensures Unmarked(SourceText) && Unmarked(TypeText)
    ensures Unmarked(NoSignaturesText) && Unmarked(SideloadedText) && Unmarked(OfficialStore)
    ensures Unmarked(ExpectedLoader) && Unmarked("null")
    ensures Unmarked("Google Play Store") && Unmarked("Amazon App Store") && Unmarked("System Installer")
  {
    NamesAscii();
    PhrasesAscii();
    SentencesAscii();
    WordsAscii();
    StoreNamesAscii();
    AsciiUnmarked(PackageName); AsciiUnmarked(SignatureHash); AsciiUnmarked(ApkChecksum);
    AsciiUnmarked(Installer); AsciiUnmarked(ClassLoader); AsciiUnmarked(Signature);
    AsciiUnmarked(PassedText); AsciiUnmarked(FailedText); AsciiUnmarked(ErrorText);
    AsciiUnmarked(ExpectedText); AsciiUnmarked(ActualText); AsciiUnmarked(HashText);
    AsciiUnmarked(SourceText); AsciiUnmarked(TypeText);
    AsciiUnmarked(NoSignaturesText); AsciiUnmarked(SideloadedText); AsciiUnmarked(OfficialStore);
    AsciiUnmarked(ExpectedLoader); AsciiUnmarked("null");
    AsciiUnmarked("Google Play Store"); AsciiUnmarked("Amazon App Store"); AsciiUnmarked("System Installer");
  }

  /** The line a check produces when its platform call throws (`check` is
      the check's name with its leading space). */
  function ErrorLine(check: string, m: Option<string>): (line: string)
    requires Unmarked(check)
    ensures |line| > 0 && line[0] == FailMark
    ensures PassMark in line <==> PassMark in MessageText(m)
    ensures Unmarked(MessageText(m)) ==> MarksExactly(line, Errored)
  {
    FixedTextUnmarked();
    [FailMark] + check + ErrorText + MessageText(m)
  }

  // ---------------------------------------------------------------------
  // The five checks: a classification of the observed value, and the line.
  // ---------------------------------------------------------------------

  /** The outcome of `verifyPackageName`. */
  function PackageVerdict(exp: Expected, obs: Observed<string>): (v: Verdict)
    ensures v == Errored <==> obs.Raised?
    ensures v == Passed <==> obs == Got(exp.packageName)
  {
    match obs
    case Raised(_) => Errored
    case Got(actual) => if actual == exp.packageName then Passed else Failed
  }

  /** `verifyPackageName`: an exact comparison with the expected name. */
  function PackageLine(exp: Expected, obs: Observed<string>): (line: string)
    ensures LeadsWith(line, PackageVerdict(exp, obs))
    ensures line[0] == PassMark <==> obs == Got(exp.packageName)
    ensures Unmarked(exp.packageName) && ObservedUnmarked(obs) ==> MarksExactly(line, PackageVerdict(exp, obs))
    ensures Unmarked(exp.packageName) && PackageVerdict(exp, obs) == Passed ==> FailMark !in line
  {
    FixedTextUnmarked();
    match obs
    case Raised(m) => ErrorLine(PackageName, m)
    case Got(actual) =>
      if exp.packageName == actual then
        [PassMark] + PackageName + PassedText + ExpectedText + exp.packageName + ActualText + actual
      else
        [FailMark] + PackageName + FailedText + ExpectedText + exp.packageName + ActualText + actual
  }

  const NoSignaturesLine := [FailMark] + Signature + FailedText + NoSignaturesText

  /** The hex digest of the first signing certificate, when there is one. */
  function FirstCertificateHash(sha256: seq<JByte> -> seq<JByte>, sigs: Option<seq<seq<JByte>>>): (h: Option<string>)
    ensures h.Some? <==> sigs.Some? && sigs.value != []
    ensures h.Some? ==> IsHex(h.value) && h.value == BytesToHex(sha256(sigs.value[0]))
  {
    match sigs
    case None => None
    case Some(list) => if list == [] then None else Some(BytesToHex(sha256(list[0])))
  }

  /** The outcome of `verifySignature`. */
  function SignatureVerdict(exp: Expected, sha256: seq<JByte> -> seq<JByte>, obs: Observed<Option<seq<seq<JByte>>>>): (v: Verdict)
    ensures v == Errored <==> obs.Raised?
    ensures v == Passed <==>
      && obs.Got? && obs.value.Some? && obs.value.value != []
      && BytesToHex(sha256(obs.value.value[0])) == exp.signatureHash
  {
    match obs
    case Raised(_) => Errored
    case Got(sigs) => if FirstCertificateHash(sha256, sigs) == Some(exp.signatureHash) then Passed else Failed
  }

  /** `verifySignature`: a null or empty certificate list is its own failure;
      otherwise the upper-case hex SHA-256 of the first certificate must equal
      the expected hash. */
  function SignatureLine(exp: Expected, sha256: seq<JByte> -> seq<JByte>, obs: Observed<Option<seq<seq<JByte>>>>): (line: string)
    ensures LeadsWith(line, SignatureVerdict(exp, sha256, obs))
    ensures line == NoSignaturesLine <==> obs.Got? && FirstCertificateHash(sha256, obs.value).None?
    ensures Unmarked(exp.signatureHash) && MessageUnmarked(obs) ==> MarksExactly(line, SignatureVerdict(exp, sha256, obs))
    ensures SignatureVerdict(exp, sha256, obs) == Passed ==> FailMark !in line
  {
    FixedTextUnmarked();
    match obs
    case Raised(m) =>
      var line := ErrorLine(SignatureHash, m);
      assert line[11] == ' ' && NoSignaturesLine[11] == ':';
      line
    case Got(sigs) =>
      if sigs.None? || sigs.value == [] then NoSignaturesLine
      else HashLine(exp, BytesToHex(sha256(sigs.value[0])))
  }

  /** The line of `verifySignature` once the certificate's hash is known. */
  function HashLine(exp: Expected, actualHash: string): (line: string)
    requires IsHex(actualHash)
    ensures LeadsWith(line, if actualHash == exp.signatureHash then Passed else Failed)
    ensures line != NoSignaturesLine
    ensures Unmarked(exp.signatureHash) ==> MarksExactly(line, if actualHash == exp.signatureHash then Passed else Failed)
    ensures actualHash == exp.signatureHash ==> FailMark !in line
  {
    FixedTextUnmarked();
    HexUnmarked(actualHash);
    if exp.signatureHash == actualHash then
      [PassMark] + SignatureHash + PassedText + HashText + actualHash
    else
      var line := [FailMark] + SignatureHash + FailedText + ExpectedText + exp.signatureHash + ActualText + actualHash;
      assert line[11] == ' ' && NoSignaturesLine[11] == ':';
      line
  }

  /** The outcome of `verifyAPKChecksum` once the digest is known. */
  function ChecksumVerdict(exp: Expected, digest: Observed<string>): (v: Verdict)
    ensures v == Errored <==> digest.Raised?
    ensures v == Passed <==> digest == Got(exp.apkHash)
  {
    match digest
    case Raised(_) => Errored
    case Got(actual) => if actual == exp.apkHash then Passed else Failed
  }

  /** The comparison `verifyAPKChecksum` makes once the digest of the file is
      known (or the reading threw). */
  function ChecksumLine(exp: Expected, digest: Observed<string>): (line: string)
    ensures LeadsWith(line, ChecksumVerdict(exp, digest))
    ensures line[0] == PassMark <==> digest == Got(exp.apkHash)
    ensures Unmarked(exp.apkHash) && ObservedUnmarked(digest) ==> MarksExactly(line, ChecksumVerdict(exp, digest))
    ensures Unmarked(exp.apkHash) && ChecksumVerdict(exp, digest) == Passed ==> FailMark !in line
  {
    FixedTextUnmarked();
    match digest
    case Raised(m) => ErrorLine(ApkChecksum, m)
    case Got(actualHash) =>
      if exp.apkHash == actualHash then
        [PassMark] + ApkChecksum + PassedText + HashText + actualHash
      else
        [FailMark] + ApkChecksum + FailedText + ExpectedText + exp.apkHash + ActualText + actualHash
  }

  /** The display name of an installer. */
  function FriendlyName(installer: string): (name: string)
    ensures installer == "com.android.vending" ==> name == "Google Play Store"
    ensures installer == "com.amazon.venezia" ==> name == "Amazon App Store"
    ensures installer == "com.android.packageinstaller" ==> name == "System Installer"
    ensures installer !in AllowedInstallers ==> name == installer
  {
    if installer == "com.android.vending" then "Google Play Store"
    else if installer == "com.amazon.venezia" then "Amazon App Store"
    else if installer == "com.android.packageinstaller" then "System Installer"
    else installer
  }

  const SideloadedLine := [FailMark] + Installer + FailedText + SideloadedText

  /** The outcome of `verifyInstaller`: a missing installer is a failure. */
  function InstallerVerdict(obs: Observed<Option<string>>): (v: Verdict)
    ensures v == Errored <==> obs.Raised?
    ensures v == Passed <==> obs.Got? && obs.value.Some? && obs.value.value in AllowedInstallers
  {
    match obs
    case Raised(_) => Errored
    case Got(None) => Failed
    case Got(Some(i)) => if i in AllowedInstallers then Passed else Failed
  }

  /** The installer name or exception message an installer line echoes
      carries no mark. */
  predicate InstallerUnmarked(obs: Observed<Option<string>>) {
    match obs
    case Got(Some(i)) => Unmarked(i)
    case Got(None) => true
    case Raised(m) => Unmarked(MessageText(m))
  }

  /** `verifyInstaller`: no installer means sideloaded, an allowed installer
      passes under its friendly name, any other fails and is echoed. */
  function InstallerLine(obs: Observed<Option<string>>): (line: string)
    ensures LeadsWith(line, InstallerVerdict(obs))
    ensures line == SideloadedLine <==> obs == Got(None)
    ensures obs.Got? && obs.value.Some? && obs.value.value in AllowedInstallers ==>
      line == [PassMark] + Installer + PassedText + SourceText + FriendlyName(obs.value.value)
    ensures obs.Got? && obs.value.Some? && obs.value.value !in AllowedInstallers ==>
      line == [FailMark] + Installer + FailedText + ExpectedText + OfficialStore + ActualText + obs.value.value
    ensures InstallerUnmarked(obs) ==> MarksExactly(line, InstallerVerdict(obs))
    ensures InstallerVerdict(obs) == Passed ==> FailMark !in line
  {
    FixedTextUnmarked();
    match obs
    case Raised(m) =>
      var line := ErrorLine(Installer, m);
      assert line[13] == 'E' && SideloadedLine[13] == 'F';
      line
    case Got(None) => SideloadedLine
    case Got(Some(installer)) =>
      if installer in AllowedInstallers then
        [PassMark] + Installer + PassedText + SourceText + FriendlyName(installer)
      else
        var line := [FailMark] + Installer + FailedText + ExpectedText + OfficialStore + ActualText + installer;
        assert line[19] == '\n' && SideloadedLine[19] == ' ';
        line
  }

  /** The outcome of `verifyClassLoader`. */
  function LoaderVerdict(obs: Observed<string>): (v: Verdict)
    ensures v == Errored <==> obs.Raised?
    ensures v == Passed <==> obs.Got? && exists i: nat :: OccursAt(obs.value, PathClassLoader, i)
  {
    match obs
    case Raised(_) => Errored
    case Got(name) =>
      ContainsIff(name, PathClassLoader);
      if Contains(name, PathClassLoader) then Passed else Failed
  }

  /** `verifyClassLoader`: the loader's class name must contain the platform
      loader's name. */
  function LoaderLine(obs: Observed<string>): (line: string)
    ensures LeadsWith(line, LoaderVerdict(obs))
    ensures line[0] == PassMark <==> obs.Got? && exists i: nat :: OccursAt(obs.value, PathClassLoader, i)
    ensures ObservedUnmarked(obs) ==> MarksExactly(line, LoaderVerdict(obs))
    ensures LoaderVerdict(obs) == Passed ==> (FailMark in line <==> FailMark in obs.value)
  {
    FixedTextUnmarked();
    match obs
    case Raised(m) => ErrorLine(ClassLoader, m)
    case Got(loaderName) =>
      ContainsIff(loaderName, PathClassLoader);
      if Contains(loaderName, PathClassLoader) then
        [PassMark] + ClassLoader + PassedText + TypeText + loaderName
      else
        [FailMark] + ClassLoader + FailedText + ExpectedText + ExpectedLoader + ActualText + loaderName
  }

  /** Hex digits are neither mark. */
  lemma HexUnmarked(s: string)
    requires IsHex(s)
    ensures Unmarked(s)
  {
  }

  // ---------------------------------------------------------------------
  // The checksum loop over the installed APK file.
  // ---------------------------------------------------------------------

  /** The APK file opened as a `FileInputStream`: the bytes it delivers, and
      whether reading past them throws (with the exception's message) rather
      than report the end of the file. */
  class ApkStream {
    const data: seq<JByte>
    const failure: Option<Option<string>>
    var pos: nat
    var closed: bool

    ghost predicate Valid()
      reads this
    {
      pos <= |data|
    }

    /** A freshly opened stream. */
    constructor (data: seq<JByte>, failure: Option<Option<string>>)
      ensures this.data == data && this.failure == failure
      ensures pos == 0 && !closed && Valid()
    {
      this.data := data;
      this.failure := failure;
      pos := 0;
      closed := false;
    }

    /** `read(buffer)`: -1 at the end of the file, otherwise some bytes (at
        least one, at most the buffer's length) copied to the front of the
        buffer. */
    method Read(buffer: array<JByte>) returns (n: Observed<int>)
      requires Valid() && !closed && buffer.Length > 0
      modifies this, buffer
      ensures Valid() && !closed
      ensures old(pos) == |data| && failure.None? ==> n == Got(-1) && pos == old(pos)
      ensures old(pos) == |data| && failure.Some? ==> n == Raised(failure.value) && pos == old(pos)
      ensures old(pos) < |data| ==>
        && n.Got? && 1 <= n.value <= buffer.Length
        && pos == old(pos) + n.value
        && buffer[..n.value] == data[old(pos)..pos]
    {
      if pos == |data| {
        n := if failure.None? then Got(-1) else Raised(failure.value);
        return;
      }
      var k :| 1 <= k <= buffer.Length && k <= |data| - pos;
      forall i | 0 <= i < k {
        buffer[i] := data[pos + i];
      }
      pos := pos + k;
      n := Got(k);
    }

    method Close()
      modifies this
      ensures closed && pos == old(pos)
    {
      closed := true;
    }
  }

  /** The chunks one after the other. */
  function Flatten(chunks: seq<seq<JByte>>): seq<JByte> {
    if chunks == [] then [] else Flatten(chunks[..|chunks| - 1]) + chunks[|chunks| - 1]
  }

  /** What the checksum check learns from the file: the hex digest of all of
      its bytes, or the exception that opening or reading it threw. */
  function ApkDigest(sha256: seq<JByte> -> seq<JByte>, apk: Observed<ApkStream>): (d: Observed<string>)
    ensures d.Got? ==> IsHex(d.value)
  {
    match apk
    case Raised(m) => Raised(m)
    case Got(stream) =>
      if stream.failure.Some? then Raised(stream.failure.value) else Got(BytesToHex(sha256(stream.data)))
  }

  /** `verifyAPKChecksum`: reads the opened file in buffers of 8192 bytes,
      gives each chunk read to the digest, and compares the digest with the
      expected hash. The digest is modelled by the bytes it was given
      (`fed`); the stream is closed only when the whole file was read. */
  method VerifyApkChecksum(exp: Expected, sha256: seq<JByte> -> seq<JByte>, apk: Observed<ApkStream>)
    returns (line: string, ghost chunks: seq<seq<JByte>>)
    requires apk.Got? ==> apk.value.Valid() && apk.value.pos == 0 && !apk.value.closed
    modifies if apk.Got? then {apk.value} else {}
    ensures line == ChecksumLine(exp, ApkDigest(sha256, apk))
    ensures apk.Got? ==> Flatten(chunks) == apk.value.data
    ensures forall k | 0 <= k < |chunks| :: 1 <= |chunks[k]| <= BufferSize
    ensures apk.Got? ==> (apk.value.closed <==> apk.value.failure.None?)
  {
    chunks := [];
    if apk.Raised? {
      line := ChecksumLine(exp, Raised(apk.message));
      return;
    }
    var fis := apk.value;
    var buffer := new JByte[BufferSize];
    var fed: seq<JByte> := [];
    while true
      invariant fis.Valid() && !fis.closed
      invariant fed == fis.data[..fis.pos] && Flatten(chunks) == fed
      invariant forall k | 0 <= k < |chunks| :: 1 <= |chunks[k]| <= BufferSize
      decreases |fis.data| - fis.pos
    {
      var bytesRead := fis.Read(buffer);
      if bytesRead.Raised? {
        assert fis.pos == |fis.data|;
        line := ChecksumLine(exp, Raised(bytesRead.message));
        return;
      }
      if bytesRead.value == -1 {
        break;
      }
      var chunk := buffer[..bytesRead.value];
      assert (chunks + [chunk])[..|chunks|] == chunks;
      fed := fed + chunk;
      chunks := chunks + [chunk];
    }
    fis.Close();
    assert fed == fis.data;
    line := ChecksumLine(exp, Got(BytesToHex(sha256(fed))));
  }

  // ---------------------------------------------------------------------
  // The report: five lines in a fixed order, and their verdicts.
  // ---------------------------------------------------------------------

  /** The lines `performIntegrityChecks` collects, in its order: package,
      signature, checksum, installer, loader. `digest` is what the checksum
      loop produced. */
  function Report(exp: Expected, sha256: seq<JByte> -> seq<JByte>, obs: LaunchObservations, digest: Observed<string>): (r: seq<string>)
    ensures |r| == 5
    ensures r[0] == PackageLine(exp, obs.packageName) && r[1] == SignatureLine(exp, sha256, obs.signatures)
    ensures r[2] == ChecksumLine(exp, digest) && r[3] == InstallerLine(obs.installer)
    ensures r[4] == LoaderLine(obs.loaderName)
  {
    [PackageLine(exp, obs.packageName), SignatureLine(exp, sha256, obs.signatures),
     ChecksumLine(exp, digest), InstallerLine(obs.installer), LoaderLine(obs.loaderName)]
  }

  /** The verdicts of the five checks in report order. */
  function Verdicts(exp: Expected, sha256: seq<JByte> -> seq<JByte>, obs: LaunchObservations, digest: Observed<string>): (vs: seq<Verdict>)
    ensures |vs| == 5
    ensures vs[0] == PackageVerdict(exp, obs.packageName) && vs[1] == SignatureVerdict(exp, sha256, obs.signatures)
    ensures vs[2] == ChecksumVerdict(exp, digest) && vs[3] == InstallerVerdict(obs.installer)
    ensures vs[4] == LoaderVerdict(obs.loaderName)
  {
    [PackageVerdict(exp, obs.packageName), SignatureVerdict(exp, sha256, obs.signatures),
     ChecksumVerdict(exp, digest), InstallerVerdict(obs.installer), LoaderVerdict(obs.loaderName)]
  }

  /** No observed text (value or exception message) carries a mark. */
  predicate ObservationsUnmarked(obs: LaunchObservations, digest: Observed<string>) {
    && ObservedUnmarked(obs.packageName)
    && MessageUnmarked(obs.signatures)
    && ObservedUnmarked(digest)
    && InstallerUnmarked(obs.installer)
    && ObservedUnmarked(obs.loaderName)
  }

  // ---------------------------------------------------------------------
  // The summary.
  // ---------------------------------------------------------------------

  /** `results.count { it.contains(mark) }`. */
  function CountMarked(lines: seq<string>, mark: char): (n: nat)
    ensures n <= |lines|
    ensures n == 0 <==> forall k | 0 <= k < |lines| :: mark !in lines[k]
  {
    if lines == [] then 0
    else
      ContainsChar(lines[0], mark);
      (if Contains(lines[0], [mark]) then 1 else 0) + CountMarked(lines[1..], mark)
  }

  /** The number of passing verdicts. */
  function CountPassed(vs: seq<Verdict>): nat {
    if vs == [] then 0 else (if vs[0] == Passed then 1 else 0) + CountPassed(vs[1..])
  }

  /** Counting marks of lines that hold exactly their verdict's marks counts
      verdicts. */
  lemma {:induction false} CountsFollowVerdicts(lines: seq<string>, vs: seq<Verdict>)
    requires |lines| == |vs|
    requires forall k | 0 <= k < |lines| :: MarksExactly(lines[k], vs[k])
    ensures CountMarked(lines, PassMark) == CountPassed(vs)
    ensures CountMarked(lines, FailMark) == |vs| - CountPassed(vs)
  {
    if lines != [] {
      CountsFollowVerdicts(lines[1..], vs[1..]);
      ContainsChar(lines[0], PassMark);
      ContainsChar(lines[0], FailMark);
      assert CountPassed(vs[1..]) <= |vs| - 1 by { CountPassedBound(vs[1..]); }
    }
  }

  lemma {:induction false} CountPassedBound(vs: seq<Verdict>)
    ensures CountPassed(vs) <= |vs|
    ensures CountPassed(vs) == |vs| <==> forall k | 0 <= k < |vs| :: vs[k] == Passed
  {
    if vs != [] {
      CountPassedBound(vs[1..]);
      if forall k | 0 <= k < |vs| - 1 :: vs[1..][k] == Passed {
        if vs[0] == Passed {
          forall k | 0 <= k < |vs| ensures vs[k] == Passed {
            if k > 0 { assert vs[k] == vs[1..][k - 1]; }
          }
        }
      } else {
        var k :| 0 <= k < |vs| - 1 && vs[1..][k] != Passed;
        assert vs[k + 1] != Passed;
      }
    }
  }

  const Rule := Repeat('=', 35)
  const Header := "\U{1F512} RASP Integrity Check Results\n" + Rule + "\n" + "\n"
  const CompromisedBanner := "\U{26A0}\U{FE0F} Security Warning: App integrity compromised!"
  const AllPassedBanner := [PassMark] + " All integrity checks passed successfully!"

  /** The header followed by each result and an empty line, as the message
      stands after the loop over the results. */
  function Listing(results: seq<string>): (r: string)
    ensures |Header| <= |r| && r[..|Header|] == Header
  {
    if results == [] then Header
    else
      var prev := Listing(results[..|results| - 1]);
      var r := prev + results[|results| - 1] + "\n" + "\n";
      assert r[..|Header|] == prev[..|Header|];
      r
  }

  const SummaryText := "Summary: "
  const PassedCountText := " passed, "
  const FailedCountText := " failed"

  /** `"Summary: $passed passed, $failed failed"`. */
  function SummaryLine(passed: nat, failed: nat): string {
    SummaryText + Decimal(passed) + PassedCountText + Decimal(failed) + FailedCountText
  }

  /** The summary line tells its counts apart: different counts give
      different lines. */
  lemma SummaryLineInjective(p1: nat, f1: nat, p2: nat, f2: nat)
    requires SummaryLine(p1, f1) == SummaryLine(p2, f2)
    ensures p1 == p2 && f1 == f2
  {
    var s := SummaryLine(p1, f1);
    var a1, a2 := Decimal(p1), Decimal(p2);
    var b1, b2 := Decimal(f1), Decimal(f2);
    SummaryParts(a1, b1);
    SummaryParts(a2, b2);
    assert a1 == s[9..9 + |a1|] == a2;
    assert |b1| == |b2|;
    assert b1 == s[18 + |a1|..18 + |a1| + |b1|] == b2;
    DecimalRoundTrip(p1);
    DecimalRoundTrip(p2);
    DecimalRoundTrip(f1);
    DecimalRoundTrip(f2);
  }

  /** Where the two counts sit in a summary line. */
  lemma SummaryParts(a: string, b: string)
    ensures var s := SummaryText + a + PassedCountText + b + FailedCountText;
      && |s| == 25 + |a| + |b|
      && s[9..9 + |a|] == a
      && s[9 + |a|] == ' '
      && s[18 + |a|..18 + |a| + |b|] == b
  {
    var s := SummaryText + a + PassedCountText + b + FailedCountText;
    assert s[9 + |a|] == PassedCountText[0];
  }

  /** The closing banner: the warning exactly when something failed. */
  function Banner(failed: nat): (b: string)
    ensures b == CompromisedBanner <==> failed > 0
    ensures b == AllPassedBanner <==> failed == 0
  {
    if failed > 0 then CompromisedBanner else AllPassedBanner
  }

  /** The dialog message `showIntegrityResults` builds. */
  function IntegrityMessage(results: seq<string>): string {
    var failed := CountMarked(results, FailMark);
    var passed := CountMarked(results, PassMark);
    Listing(results) + Rule + "\n" + SummaryLine(passed, failed) + "\n" + "\n" + Banner(failed) + "\n"
  }

  /** The message opens with the header and closes with the banner that the
      fail-mark count chooses. */
  lemma MessageEnds(results: seq<string>)
    ensures var m := IntegrityMessage(results);
      && |Header| <= |m| && m[..|Header|] == Header
      && var tail := Banner(CountMarked(results, FailMark)) + "\n";
         |tail| <= |m| && m[|m| - |tail|..] == tail
  {
    var failed := CountMarked(results, FailMark);
    var passed := CountMarked(results, PassMark);
    var listing, summary, banner := Listing(results), SummaryLine(passed, failed), Banner(failed);
    assert IntegrityMessage(results) == listing + Rule + "\n" + summary + "\n" + "\n" + banner + "\n";
    MessageShape(Header, listing, Rule, summary, banner);
  }

  /** The layout of `IntegrityMessage` over arbitrary parts. */
  lemma MessageShape(h: string, listing: string, rule: string, summary: string, banner: string)
    requires |h| <= |listing| && listing[..|h|] == h
    ensures var m := listing + rule + "\n" + summary + "\n" + "\n" + banner + "\n";
      && |h| <= |m| && m[..|h|] == h
      && |banner + "\n"| <= |m| && m[|m| - |banner + "\n"|..] == banner + "\n"
  {
    var w1 := listing + rule;
    KeepsPrefix(h, listing, rule);
    var w2 := w1 + "\n";
    KeepsPrefix(h, w1, "\n");
    var w3 := w2 + summary;
    KeepsPrefix(h, w2, summary);
    var w4 := w3 + "\n";
    KeepsPrefix(h, w3, "\n");
    var w5 := w4 + "\n";
    KeepsPrefix(h, w4, "\n");
    var w6 := w5 + banner;
    KeepsPrefix(h, w5, banner);
    KeepsPrefix(h, w6, "\n");
    KeepsSuffix(w5, banner, "\n");
  }

  /** Appending keeps a prefix. */
  lemma KeepsPrefix(h: string, x: string, y: string)
    requires |h| <= |x| && x[..|h|] == h
    ensures |h| <= |x + y| && (x + y)[..|h|] == h
  {
    assert (x + y)[..|h|] == x[..|h|];
  }

  /** The last two parts of a concatenation are its suffix. */
  lemma KeepsSuffix(x: string, b: string, c: string)
    ensures |b + c| <= |x + b + c| && (x + b + c)[|x + b + c| - |b + c|..] == b + c
  {
  }

  /** `showIntegrityResults` without the dialog: the message, line by line. */
  method ShowIntegrityResults(results: seq<string>) returns (message: string)
    ensures message == IntegrityMessage(results)
  {
    message := Header;
    for i := 0 to |results|
      invariant message == Listing(results[..i])
    {
      assert results[..i + 1][..i] == results[..i];
      message := message + results[i] + "\n";
      message := message + "\n";
    }
    assert results[..|results|] == results;
    message := message + Rule + "\n";
    var failed := CountMarked(results, FailMark);
    var passed := CountMarked(results, PassMark);
    message := message + SummaryLine(passed, failed) + "\n";
    message := message + "\n";
    if failed > 0 {
      message := message + CompromisedBanner + "\n";
    } else {
      message := message + AllPassedBanner + "\n";
    }
  }

  /** `performIntegrityChecks`: runs the five checks in order, collecting
      their lines, and builds the dialog message from them. Every check runs
      whatever the earlier ones found, since each catches its own
      exceptions. */
  method PerformIntegrityChecks(exp: Expected, sha256: seq<JByte> -> seq<JByte>, obs: LaunchObservations, apk: Observed<ApkStream>)
    returns (results: seq<string>, message: string)
    requires apk.Got? ==> apk.value.Valid() && apk.value.pos == 0 && !apk.value.closed
    modifies if apk.Got? then {apk.value} else {}
    ensures results == Report(exp, sha256, obs, ApkDigest(sha256, apk))
    ensures message == IntegrityMessage(results)
  {
    var package := PackageLine(exp, obs.packageName);
    var signature := SignatureLine(exp, sha256, obs.signatures);
    var checksum, _ := VerifyApkChecksum(exp, sha256, apk);
    var installer := InstallerLine(obs.installer);
    var loader := LoaderLine(obs.loaderName);
    results := [];
    results := results + [package];
    results := results + [signature];
    results := results + [checksum];
    results := results + [installer];
    results := results + [loader];
    AppendFive(package, signature, checksum, installer, loader);
    message := ShowIntegrityResults(results);
  }

  /** Solver help: the five appends of `performIntegrityChecks` build the
      five-element list, stated apart so the method's proof stays small. */
  lemma AppendFive(a: string, b: string, c: string, d: string, e: string)
    ensures [] + [a] + [b] + [c] + [d] + [e] == [a, b, c, d, e]
  {
  }

  // ---------------------------------------------------------------------
  // Properties of the report.
  // ---------------------------------------------------------------------

  /** Every line of the report starts with its check's mark. */
  lemma ReportLeads(exp: Expected, sha256: seq<JByte> -> seq<JByte>, obs: LaunchObservations, digest: Observed<string>)
    ensures var r := Report(exp, sha256, obs, digest);
      var vs := Verdicts(exp, sha256, obs, digest);
      forall k | 0 <= k < 5 :: LeadsWith(r[k], vs[k])
  {
    var r := Report(exp, sha256, obs, digest);
    var vs := Verdicts(exp, sha256, obs, digest);
    assert LeadsWith(r[0], vs[0]) && LeadsWith(r[1], vs[1]) && LeadsWith(r[2], vs[2]);
    assert LeadsWith(r[3], vs[3]) && LeadsWith(r[4], vs[4]);
    LeadsAll(r, vs);
  }

  /** Solver help: turns five facts about fixed positions into the
      quantified form, away from the large `Report` terms. */
  lemma LeadsAll(r: seq<string>, vs: seq<Verdict>)
    requires |r| == 5 && |vs| == 5
    requires LeadsWith(r[0], vs[0]) && LeadsWith(r[1], vs[1]) && LeadsWith(r[2], vs[2])
    requires LeadsWith(r[3], vs[3]) && LeadsWith(r[4], vs[4])
    ensures forall k | 0 <= k < 5 :: LeadsWith(r[k], vs[k])
  {
  }

  /** With no mark in the expected values and the observed text, every line
      holds exactly its verdict's marks. */
  lemma ReportMarksExactly(exp: Expected, sha256: seq<JByte> -> seq<JByte>, obs: LaunchObservations, digest: Observed<string>)
    requires ExpectedUnmarked(exp) && ObservationsUnmarked(obs, digest)
    ensures var r := Report(exp, sha256, obs, digest);
      var vs := Verdicts(exp, sha256, obs, digest);
      forall k | 0 <= k < 5 :: MarksExactly(r[k], vs[k])
  {
    var r := Report(exp, sha256, obs, digest);
    var vs := Verdicts(exp, sha256, obs, digest);
    assert MarksExactly(r[0], vs[0]) && MarksExactly(r[1], vs[1]) && MarksExactly(r[2], vs[2]);
    assert MarksExactly(r[3], vs[3]) && MarksExactly(r[4], vs[4]);
    MarksAll(r, vs);
  }

  /** Solver help, as `LeadsAll`, for `MarksExactly`. */
  lemma MarksAll(r: seq<string>, vs: seq<Verdict>)
    requires |r| == 5 && |vs| == 5
    requires MarksExactly(r[0], vs[0]) && MarksExactly(r[1], vs[1]) && MarksExactly(r[2], vs[2])
    requires MarksExactly(r[3], vs[3]) && MarksExactly(r[4], vs[4])
    ensures forall k | 0 <= k < 5 :: MarksExactly(r[k], vs[k])
  {
  }

  /** A passing line carries the fail mark only when it is the class loader's
      and the loader's name holds the mark. */
  lemma PassingLinesUnmarked(exp: Expected, sha256: seq<JByte> -> seq<JByte>, obs: LaunchObservations, digest: Observed<string>)
    requires ExpectedUnmarked(exp)
    ensures var r := Report(exp, sha256, obs, digest);
      var vs := Verdicts(exp, sha256, obs, digest);
      && (forall k | 0 <= k < 4 :: vs[k] == Passed ==> FailMark !in r[k])
      && (vs[4] == Passed ==> (FailMark in r[4] <==> FailMark in obs.loaderName.value))
  {
    var r := Report(exp, sha256, obs, digest);
    var vs := Verdicts(exp, sha256, obs, digest);
    assert vs[0] == Passed ==> FailMark !in r[0];
    assert vs[1] == Passed ==> FailMark !in r[1];
    assert vs[2] == Passed ==> FailMark !in r[2];
    assert vs[3] == Passed ==> FailMark !in r[3];
    PassingAll(r, vs);
  }

  /** Solver help, as `LeadsAll`, for the first four lines' fail marks. */
  lemma PassingAll(r: seq<string>, vs: seq<Verdict>)
    requires |r| == 5 && |vs| == 5
    requires vs[0] == Passed ==> FailMark !in r[0]
    requires vs[1] == Passed ==> FailMark !in r[1]
    requires vs[2] == Passed ==> FailMark !in r[2]
    requires vs[3] == Passed ==> FailMark !in r[3]
    ensures forall k | 0 <= k < 4 :: vs[k] == Passed ==> FailMark !in r[k]
  {
  }

  /** When every line starts with its verdict's mark, a count of zero fail
      marks means that every verdict is a pass. */
  lemma {:induction false} NoFailMarkAllPassed(lines: seq<string>, vs: seq<Verdict>)
    requires |lines| == |vs|
    requires forall k | 0 <= k < |lines| :: LeadsWith(lines[k], vs[k])
    ensures CountMarked(lines, FailMark) == 0 ==> forall k | 0 <= k < |vs| :: vs[k] == Passed
  {
    forall k | 0 <= k < |vs| && vs[k] != Passed ensures FailMark in lines[k] {
      assert lines[k][0] == FailMark;
    }
  }

  /** The all-clear banner is never shown while a check failed or errored,
      whatever the observed values contain. */
  lemma AllClearIsSound(exp: Expected, sha256: seq<JByte> -> seq<JByte>, obs: LaunchObservations, digest: Observed<string>)
    ensures var r := Report(exp, sha256, obs, digest);
      Banner(CountMarked(r, FailMark)) == AllPassedBanner ==>
        forall k | 0 <= k < 5 :: Verdicts(exp, sha256, obs, digest)[k] == Passed
  {
    ReportLeads(exp, sha256, obs, digest);
    NoFailMarkAllPassed(Report(exp, sha256, obs, digest), Verdicts(exp, sha256, obs, digest));
  }

  /** The compromised banner appears exactly when some check did not pass,
      or the class loader passed with a name that itself holds the fail mark
      (its name is echoed into the passing line). */
  lemma CompromisedExactly(exp: Expected, sha256: seq<JByte> -> seq<JByte>, obs: LaunchObservations, digest: Observed<string>)
    requires ExpectedUnmarked(exp)
    ensures var r := Report(exp, sha256, obs, digest);
      var vs := Verdicts(exp, sha256, obs, digest);
      Banner(CountMarked(r, FailMark)) == CompromisedBanner <==>
        (exists k | 0 <= k < 5 :: vs[k] != Passed) || (vs[4] == Passed && FailMark in obs.loaderName.value)
  {
    var r := Report(exp, sha256, obs, digest);
    var vs := Verdicts(exp, sha256, obs, digest);
    ReportLeads(exp, sha256, obs, digest);
    PassingLinesUnmarked(exp, sha256, obs, digest);
    forall k | 0 <= k < 5 && vs[k] != Passed ensures FailMark in r[k] {
      assert r[k][0] == FailMark;
    }
  }

  /** When no observed text carries a mark, the summary counts exactly the
      passing checks as passed and all the others (failures and errors) as
      failed, and the two add up to five. */
  lemma CountsAreExact(exp: Expected, sha256: seq<JByte> -> seq<JByte>, obs: LaunchObservations, digest: Observed<string>)
    requires ExpectedUnmarked(exp) && ObservationsUnmarked(obs, digest)
    ensures var r := Report(exp, sha256, obs, digest);
      var vs := Verdicts(exp, sha256, obs, digest);
      CountMarked(r, PassMark) == CountPassed(vs) && CountMarked(r, FailMark) == 5 - CountPassed(vs)
  {
    ReportMarksExactly(exp, sha256, obs, digest);
    CountsFollowVerdicts(Report(exp, sha256, obs, digest), Verdicts(exp, sha256, obs, digest));
  }

  /** With the placeholders the activity ships with, the signature and the
      checksum checks can never pass, so the report always shows at least two
      failures and the compromised banner. */
  lemma ShippedBuildAlwaysCompromised(sha256: seq<JByte> -> seq<JByte>, obs: LaunchObservations, digest: Observed<string>)
    requires digest.Got? ==> IsHex(digest.value)
    ensures var r := Report(Shipped, sha256, obs, digest);
      var vs := Verdicts(Shipped, sha256, obs, digest);
      vs[1] != Passed && vs[2] != Passed && CountMarked(r, FailMark) >= 2 &&
      Banner(CountMarked(r, FailMark)) == CompromisedBanner
  {
    var r := Report(Shipped, sha256, obs, digest);
    var vs := Verdicts(Shipped, sha256, obs, digest);
    assert !IsHexDigit(Shipped.signatureHash[0]) && !IsHexDigit(Shipped.apkHash[0]);
    if obs.signatures.Got? && FirstCertificateHash(sha256, obs.signatures.value).Some? {
      assert IsHex(FirstCertificateHash(sha256, obs.signatures.value).value);
    }
    ReportLeads(Shipped, sha256, obs, digest);
    assert vs[1] != Passed && vs[2] != Passed;
    TwoLeadingFailures(r);
  }

  /** Two lines that start with the fail mark are counted twice. */
  lemma TwoLeadingFailures(r: seq<string>)
    requires |r| == 5 && LeadsWith(r[1], Failed) && LeadsWith(r[2], Failed)
    ensures CountMarked(r, FailMark) >= 2
  {
    ContainsChar(r[1], FailMark);
    ContainsChar(r[2], FailMark);
    assert r[1..][1..] == r[2..];
  }

  /** The installer's and the loader's own names carry no mark. */
  lemma PlatformNamesUnmarked()
    ensures Unmarked("com.android.vending") && Unmarked(PathClassLoader)
  {
    assert IsAscii("com.android.vending");
    assert IsAscii(PathClassLoader);
    AsciiUnmarked("com.android.vending");
    AsciiUnmarked(PathClassLoader);
  }

  /** The observations of a launch in the mixed scenario below. */
  function MixedLaunch(exp: Expected, cert: seq<JByte>): LaunchObservations {
    LaunchObservations(Got(exp.packageName), Got(Some([cert])), Got(Some("com.android.vending")), Got(PathClassLoader))
  }

  lemma MixedVerdicts(exp: Expected, sha256: seq<JByte> -> seq<JByte>, cert: seq<JByte>)
    requires BytesToHex(sha256(cert)) != exp.signatureHash
    ensures Verdicts(exp, sha256, MixedLaunch(exp, cert), Got(exp.apkHash)) == [Passed, Failed, Passed, Passed, Passed]
  {
    assert Contains(PathClassLoader, PathClassLoader);
  }

  /** A mixed launch: the package matches, the signature does not,
      the checksum matches, the app came from Google Play and the standard
      loader is in use; the summary counts four passes and one failure and
      shows the compromised banner. */
  lemma FourPassedOneFailed(exp: Expected, sha256: seq<JByte> -> seq<JByte>, cert: seq<JByte>)
    requires ExpectedUnmarked(exp)
    requires BytesToHex(sha256(cert)) != exp.signatureHash
    ensures var r := Report(exp, sha256, MixedLaunch(exp, cert), Got(exp.apkHash));
      CountMarked(r, PassMark) == 4 && CountMarked(r, FailMark) == 1 &&
      SummaryLine(CountMarked(r, PassMark), CountMarked(r, FailMark)) == "Summary: 4 passed, 1 failed" &&
      Banner(CountMarked(r, FailMark)) == CompromisedBanner
  {
    FourOneSummary();
    var obs := MixedLaunch(exp, cert);
    PlatformNamesUnmarked();
    assert ObservationsUnmarked(obs, Got(exp.apkHash));
    CountsAreExact(exp, sha256, obs, Got(exp.apkHash));
    MixedVerdicts(exp, sha256, cert);
    assert CountPassed([Passed, Failed, Passed, Passed, Passed]) == 4;
  }

  /** The summary line of four passes and one failure. */
  lemma FourOneSummary()
    ensures SummaryLine(4, 1) == "Summary: 4 passed, 1 failed"
  {
    assert Decimal(4) == "4" && Decimal(1) == "1";
  }
}
