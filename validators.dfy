/**
 * The pure validators of the shared utilities: e-mail shape, mainland-China
 * mobile number, password strength, and file-extension extraction.
 */
module Validators {
  import opened Wrappers
  import opened Text

  // ---------------------------------------------------------------------------
  // Character classes of JavaScript regular expressions

  /** `\s`: the white-space and line-terminator characters of ECMAScript. */
  predicate IsSpace(c: char) {
    c == '\t' || c == '\n' || c == '\U{000B}' || c == '\U{000C}' || c == '\r' || c == ' '
    || c == '\U{00A0}' || c == '\U{1680}' || ('\U{2000}' <= c <= '\U{200A}')
    || c == '\U{2028}' || c == '\U{2029}' || c == '\U{202F}' || c == '\U{205F}'
    || c == '\U{3000}' || c == '\U{FEFF}'
  }

  /** `[A-Za-z]`. */
  predicate IsAsciiLetter(c: char) {
    'A' <= c <= 'Z' || 'a' <= c <= 'z'
  }

  // ---------------------------------------------------------------------------
  // Searching a string

  /** `s.indexOf(c)`: the first position of `c`, or -1. */
  function IndexOf(s: string, c: char): (r: int)
    ensures -1 <= r < |s|
    ensures r == -1 <==> c !in s
    ensures r >= 0 ==> s[r] == c && forall k | 0 <= k < r :: s[k] != c
  {
    if |s| == 0 then -1
    else if s[0] == c then 0
    else var r := IndexOf(s[1..], c); if r == -1 then -1 else r + 1
  }

  /** `s.lastIndexOf(c)`: the last position of `c`, or -1. */
  function LastIndexOf(s: string, c: char): (r: int)
    ensures -1 <= r < |s|
    ensures r == -1 <==> c !in s
    ensures r >= 0 ==> s[r] == c && forall k | r < k < |s| :: s[k] != c
  {
    if |s| == 0 then -1
    else if s[|s| - 1] == c then |s| - 1
    else LastIndexOf(s[..|s| - 1], c)
  }

  // ---------------------------------------------------------------------------
  // isValidEmail

  /** `[^\s@]`. */
  predicate EmailChar(c: char) {
    !IsSpace(c) && c != '@'
  }

  /**
   * What `/^[^\s@]+@[^\s@]+\.[^\s@]+$/` matches: an '@' at `i` and a '.' at
   * `j`, with at least one character before the '@', between the two, and
   * after the '.', and every character except that '@' drawn from `[^\s@]`.
   */
  ghost predicate MatchesEmailPattern(s: string) {
    exists i, j | 0 < i && i + 1 < j && j + 1 < |s| ::
      s[i] == '@' && s[j] == '.' && forall k | 0 <= k < |s| && k != i :: EmailChar(s[k])
  }

  predicate HasInnerDot(domain: string) {
    exists j | 0 < j < |domain| - 1 :: domain[j] == '.'
  }

  /** `isValidEmail`, decided as: one '@', no white space, a non-empty local part, a '.' inside the domain. */
  predicate IsValidEmail(s: string)
    ensures IsValidEmail(s) ==> |s| >= 5 && s[0] != '@' && '@' in s
  {
    var at := IndexOf(s, '@');
    (forall k | 0 <= k < |s| :: !IsSpace(s[k]))
    && at > 0 && LastIndexOf(s, '@') == at
    && HasInnerDot(s[at + 1..])
  }

  /** The decision agrees with the regular expression in both directions. */
  lemma EmailDecisionMatchesPattern(s: string)
    ensures IsValidEmail(s) <==> MatchesEmailPattern(s)
  {
    if IsValidEmail(s) {
      ValidEmailMatches(s);
    }
    if MatchesEmailPattern(s) {
      MatchingEmailIsValid(s);
    }
  }

  lemma ValidEmailMatches(s: string)
    requires IsValidEmail(s)
    ensures MatchesEmailPattern(s)
  {
    var at := IndexOf(s, '@');
    var domain := s[at + 1..];
    var j :| 0 < j < |domain| - 1 && domain[j] == '.';
    assert s[at + 1 + j] == '.';
    assert forall k | 0 <= k < |s| && k != at :: EmailChar(s[k]);
    assert 0 < at && at + 1 < at + 1 + j && at + 1 + j + 1 < |s|;
  }

  lemma MatchingEmailIsValid(s: string)
    requires MatchesEmailPattern(s)
    ensures IsValidEmail(s)
  {
    var i, j :| 0 < i && i + 1 < j && j + 1 < |s| && s[i] == '@' && s[j] == '.'
                && forall k | 0 <= k < |s| && k != i :: EmailChar(s[k]);
    assert IndexOf(s, '@') == i;
    assert LastIndexOf(s, '@') == i;
    assert s[i + 1..][j - i - 1] == '.';
    forall k | 0 <= k < |s|
      ensures !IsSpace(s[k])
    {
      if k != i {
        assert EmailChar(s[k]);
      }
    }
  }

  // ---------------------------------------------------------------------------
  // isValidPhone

  /** `/^1[3-9]\d{9}$/` (`\d` is ASCII only). */
  predicate IsValidPhone(s: string)
    ensures IsValidPhone(s) ==> |s| == 11 && ParseDecimal(s).Some?
  {
    |s| == 11 && s[0] == '1' && '3' <= s[1] <= '9' && forall k | 2 <= k < 11 :: IsDigit(s[k])
  }

  /** A valid phone number is eleven ASCII digits; a digit string of that shape is valid. */
  lemma PhoneIsElevenDigits(s: string)
    ensures IsValidPhone(s) ==> |s| == 11 && AllDigits(s) && ParseDecimal(s).Some?
    ensures |s| == 11 && AllDigits(s) && s[0] == '1' && s[1] != '0' && s[1] != '1' && s[1] != '2' ==> IsValidPhone(s)
  {
  }

  // ---------------------------------------------------------------------------
  // isValidPassword

  const PasswordTooShort: string := "密码长度至少6位"
  const PasswordNeedsLetter: string := "密码必须包含字母"
  const PasswordNeedsDigit: string := "密码必须包含数字"

  datatype PasswordCheck = PasswordCheck(valid: bool, message: Option<string>)

  predicate HasLetter(s: string) {
    exists k | 0 <= k < |s| :: IsAsciiLetter(s[k])
  }

  predicate HasDigit(s: string) {
    exists k | 0 <= k < |s| :: IsDigit(s[k])
  }

  /** `isValidPassword`: the first failing rule, in order length, letter, digit. */
  function IsValidPassword(p: string): (r: PasswordCheck)
    ensures r.valid <==> |p| >= 6 && HasLetter(p) && HasDigit(p)
    ensures r.valid <==> r.message.None?
    ensures |p| < 6 ==> r.message == Some(PasswordTooShort)
    ensures |p| >= 6 && !HasLetter(p) ==> r.message == Some(PasswordNeedsLetter)
    ensures |p| >= 6 && HasLetter(p) && !HasDigit(p) ==> r.message == Some(PasswordNeedsDigit)
  {
    if |p| < 6 then PasswordCheck(false, Some(PasswordTooShort))
    else if !HasLetter(p) then PasswordCheck(false, Some(PasswordNeedsLetter))
    else if !HasDigit(p) then PasswordCheck(false, Some(PasswordNeedsDigit))
    else PasswordCheck(true, None)
  }

  // ---------------------------------------------------------------------------
  // getFileExtension

  const TwoTo32: int := 0x1_0000_0000

  /** `x >>> 0`: the value as an unsigned 32-bit integer. */
  function ToUint32(x: int): (r: int)
    ensures 0 <= r < TwoTo32
  {
    x % TwoTo32
  }

  /** `s.slice(start)` for a non-negative start: empty once start passes the end. */
  function SliceFrom(s: string, start: nat): string {
    if start >= |s| then "" else s[start..]
  }

  /** `filename.slice(((d - 1) >>> 0) + 2)` for the last-dot position `d`. */
  function SliceAfterDot(filename: string, d: int): string {
    SliceFrom(filename, ToUint32(d - 1) + 2)
  }

  /** `getFileExtension`, with the unsigned-shift trick written out. */
  function GetFileExtension(filename: string): (ext: string)
    ensures |ext| <= |filename| && ext == filename[|filename| - |ext|..]
  {
    SliceAfterDot(filename, LastIndexOf(filename, '.'))
  }

  /** On a 32-bit range, `>>> 0` adds 2^32 to a negative value and keeps the others. */
  lemma ToUint32InRange(x: int)
    requires -TwoTo32 <= x < TwoTo32
    ensures ToUint32(x) == if x < 0 then x + TwoTo32 else x
  {
  }

  /**
   * The shift sends -1 to 2^32 - 1, so a dot at 0 or no dot at all starts the
   * slice past the end; a later dot starts it just after the dot.
   */
  lemma SliceAfterDotIsTail(filename: string, d: int)
    requires -1 <= d < |filename| <= TwoTo32
    ensures d <= 0 ==> SliceAfterDot(filename, d) == ""
    ensures d > 0 ==> SliceAfterDot(filename, d) == filename[d + 1..]
  {
    ToUint32InRange(d - 1);
  }

  /**
   * The extension is the text after the last '.', and empty when there is no
   * '.' or the last '.' opens the name (a dot file).
   */
  lemma FileExtensionIsAfterLastDot(filename: string)
    requires |filename| <= TwoTo32
    ensures LastIndexOf(filename, '.') <= 0 ==> GetFileExtension(filename) == ""
    ensures LastIndexOf(filename, '.') > 0 ==> GetFileExtension(filename) == filename[LastIndexOf(filename, '.') + 1..]
    ensures '.' !in GetFileExtension(filename)
  {
    SliceAfterDotIsTail(filename, LastIndexOf(filename, '.'));
    NoDotAfterLastDot(filename);
  }

  lemma NoDotAfterLastDot(filename: string)
    ensures var d := LastIndexOf(filename, '.');
            d >= 0 ==> '.' !in filename[d + 1..]
  {
    var d := LastIndexOf(filename, '.');
    if d >= 0 {
      var ext := filename[d + 1..];
      forall k | 0 <= k < |ext| ensures ext[k] != '.' {
        assert ext[k] == filename[d + 1 + k];
      }
    }
  }

  /** A position holding `c` with no `c` after it is the last one. */
  lemma LastIndexOfAt(s: string, c: char, i: int)
    requires 0 <= i < |s| && s[i] == c
    requires forall k | i < k < |s| :: s[k] != c
    ensures LastIndexOf(s, c) == i
  {
  }

  lemma FileExtensionExamples()
    ensures GetFileExtension("resume.pdf") == "pdf"
    ensures GetFileExtension("archive.tar.gz") == "gz"
    ensures GetFileExtension(".bashrc") == ""
    ensures GetFileExtension("README") == ""
  {
    var a, b, c, e := "resume.pdf", "archive.tar.gz", ".bashrc", "README";
    LastIndexOfAt(a, '.', 6);
    FileExtensionIsAfterLastDot(a);
    assert a[7..] == "pdf";
    LastIndexOfAt(b, '.', 11);
    FileExtensionIsAfterLastDot(b);
    assert b[12..] == "gz";
    LastIndexOfAt(c, '.', 0);
    FileExtensionIsAfterLastDot(c);
    assert forall k | 0 <= k < |e| :: e[k] != '.';
    FileExtensionIsAfterLastDot(e);
  }
}
