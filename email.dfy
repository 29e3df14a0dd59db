/** The email rule both the sign-up and the login screen apply before calling
    the backend: the regular expression `^[^\s@]+@[^\s@]+\.[^\s@]+$`, written
    out as the shape it accepts, and a scan that decides it. */
module EmailRule {
  import opened Common
  import opened Text

  /** A character of the class `[^\s@]`. */
  predicate SegmentChar(c: char) {
    !IsJsWhitespace(c) && c != '@'
  }

  /** One or more characters of `[^\s@]`. */
  predicate Segment(s: string) {
    s != [] && forall k | 0 <= k < |s| :: SegmentChar(s[k])
  }

  /** The string the regular expression matches: a local part, `@`, a name,
      a dot and a last part, each part made of `[^\s@]+`. `i` is the position
      of the `@` and `j` that of the dot. */
  predicate IsValidEmail(s: string) {
    exists i: nat, j: nat | i < j < |s| :: MatchesAt(s, i, j)
  }

  /** The position of the first `c` in `s`, as `indexOf` finds it. */
  function IndexOf(s: string, c: char): (r: Option<nat>)
    ensures r.Some? ==> r.value < |s| && s[r.value] == c && c !in s[..r.value]
    ensures r.None? <==> c !in s
  {
    if s == [] then None
    else if s[0] == c then Some(0)
    else
      match IndexOf(s[1..], c)
      case None => None
      case Some(i) =>
        assert s[..i + 1] == [s[0]] + s[1..][..i];
        Some(i + 1)
  }

  /** The domain part `[^\s@]+\.[^\s@]+`: no whitespace and no `@`, with a dot
      that is neither its first nor its last character. */
  predicate IsDomain(d: string) {
    Segment(d) && exists j: nat | 0 < j < |d| - 1 :: d[j] == '.'
  }

  /** The decision the regular expression makes, read left to right: split at
      the first `@`, then check the two sides. */
  predicate AcceptsEmail(s: string) {
    match IndexOf(s, '@')
    case None => false
    case Some(i) => 0 < i && Segment(s[..i]) && IsDomain(s[i + 1..])
  }

  /** A segment split at an inner dot is two segments around it, and back. */
  lemma DomainSplit(d: string, j: nat)
    requires 0 < j < |d| - 1 && d[j] == '.'
    ensures Segment(d) <==> Segment(d[..j]) && Segment(d[j + 1..])
  {
    if Segment(d[..j]) && Segment(d[j + 1..]) {
      forall k | 0 <= k < |d| ensures SegmentChar(d[k]) {
        if k < j {
          assert d[k] == d[..j][k];
        } else if k > j {
          assert d[k] == d[j + 1..][k - j - 1];
        }
      }
    }
  }

  /** The regular expression matches with the `@` at `i` and the dot at `j`. */
  predicate MatchesAt(s: string, i: nat, j: nat) {
    0 < i && i + 1 < j && j + 1 < |s| &&
    s[i] == '@' && s[j] == '.' && Segment(s[..i]) && Segment(s[i + 1..j]) && Segment(s[j + 1..])
  }

  lemma MatchesAtIsValid(s: string, i: nat, j: nat)
    requires MatchesAt(s, i, j)
    ensures IsValidEmail(s)
  {
  }

  /** What the scan accepts, the regular expression matches. */
  lemma AcceptsEmailSound(s: string)
    requires AcceptsEmail(s)
    ensures IsValidEmail(s)
  {
    var i := IndexOf(s, '@').value;
    var d := s[i + 1..];
    var j: nat :| 0 < j < |d| - 1 && d[j] == '.';
    DomainSplit(d, j);
    assert s[i + 1..i + 1 + j] == d[..j];
    assert s[i + 1 + j + 1..] == d[j + 1..];
    MatchesAtIsValid(s, i, i + 1 + j);
  }

  /** In a match, the `@` is the first one of the string. */
  lemma MatchedAtIsFirst(s: string, i: nat, j: nat)
    requires MatchesAt(s, i, j)
    ensures IndexOf(s, '@') == Some(i)
  {
    assert '@' !in s[..i] by {
      forall k | 0 <= k < i ensures s[..i][k] != '@' {
        assert SegmentChar(s[..i][k]);
      }
    }
  }

  /** What the regular expression matches, the scan accepts. */
  lemma AcceptsEmailComplete(s: string)
    requires IsValidEmail(s)
    ensures AcceptsEmail(s)
  {
    var i: nat, j: nat :| i < j < |s| && MatchesAt(s, i, j);
    MatchedAtIsFirst(s, i, j);
    var d := s[i + 1..];
    assert d[..j - i - 1] == s[i + 1..j];
    assert d[j - i..] == s[j + 1..];
    DomainSplit(d, j - i - 1);
  }

  /** The scan accepts exactly the strings the regular expression matches. */
  lemma AcceptsEmailIff(s: string)
    ensures AcceptsEmail(s) <==> IsValidEmail(s)
  {
    if AcceptsEmail(s) {
      AcceptsEmailSound(s);
    }
    if IsValidEmail(s) {
      AcceptsEmailComplete(s);
    }
  }

  /** A valid address has exactly one `@` and no whitespace at all. */
  lemma ValidEmailShape(s: string)
    requires IsValidEmail(s)
    ensures exists i | 0 < i < |s| - 1 :: s[i] == '@' && '@' !in s[..i] && '@' !in s[i + 1..]
    ensures forall k | 0 <= k < |s| :: !IsJsWhitespace(s[k])
  {
    var i: nat, j: nat :| i < j < |s| && MatchesAt(s, i, j);
    forall k | 0 <= k < |s| ensures !IsJsWhitespace(s[k]) && (k != i ==> s[k] != '@') {
      if k < i {
        assert s[k] == s[..i][k];
      } else if i < k < j {
        assert s[k] == s[i + 1..j][k - i - 1];
      } else if k > j {
        assert s[k] == s[j + 1..][k - j - 1];
      }
    }
    assert '@' !in s[..i] && '@' !in s[i + 1..];
  }

  /** The empty string is rejected, so an empty email never passes. */
  lemma EmptyIsInvalid()
    ensures !IsValidEmail("")
  {
  }

  lemma SimpleAddressIsValid()
    ensures IsValidEmail("a@b.c")
  {
    var s := "a@b.c";
    assert s[..1] == "a" && s[2..3] == "b" && s[4..] == "c";
    MatchesAtIsValid(s, 1, 3);
  }

  /** Any three segments joined by `@` and a dot make a valid address; the
      last segment may itself hold dots, as in "a@b..c". */
  lemma JoinedSegmentsAreValid(local: string, name: string, last: string)
    requires Segment(local) && Segment(name) && Segment(last)
    ensures IsValidEmail(local + "@" + name + "." + last)
  {
    var s := local + "@" + name + "." + last;
    var i, j := |local|, |local| + 1 + |name|;
    assert s[..i] == local;
    assert s[i + 1..j] == name;
    assert s[j + 1..] == last;
    MatchesAtIsValid(s, i, j);
  }

  /** A dot right after the `@` leaves no name before it. */
  lemma DotAfterAtIsInvalid()
    ensures !IsValidEmail("a@.c")
  {
  }
}
