/**
 * The field validators every stage uses.  They are textually identical in all
 * ten programs: `trim().isEmpty()` for required text, `matches("\\d{10}")` for
 * phone numbers, `matches("^[A-Za-z0-9+_.-]+@(.+)$")` for e-mail addresses and
 * `length() < 3 || !matches("^[a-zA-Z0-9]+$")` for codes.  Each is modelled
 * literally (whole-string regex match, Java's default `.`), and each
 * literal model is paired with a characterisation proved equal to it.
 */
module Validators {

  /** The characters `String.trim()` strips from both ends: code points up to U+0020. */
  predicate IsTrimmable(c: char)
  {
    c <= ' '
  }

  /** `String.trim()`, leading half: drop trimmable characters from the front. */
  function TrimLeading(s: string): (t: string)
    ensures |t| <= |s| && t == s[|s| - |t|..]
    ensures forall i :: 0 <= i < |s| - |t| ==> IsTrimmable(s[i])
    ensures t != [] ==> !IsTrimmable(t[0])
  {
    if s != [] && IsTrimmable(s[0]) then TrimLeading(s[1..]) else s
  }

  /** `String.trim()`, trailing half: drop trimmable characters from the back. */
  function TrimTrailing(s: string): (t: string)
    ensures |t| <= |s| && t == s[..|t|]
    ensures forall i :: |t| <= i < |s| ==> IsTrimmable(s[i])
    ensures t != [] ==> !IsTrimmable(t[|t| - 1])
  {
    if s != [] && IsTrimmable(s[|s| - 1]) then TrimTrailing(s[..|s| - 1]) else s
  }

  /**
   * Java's `String.trim()`: the input with its trimmable ends cut off, and
   * nothing else removed.
   */
  function Trim(s: string): (t: string)
    ensures |t| <= |s|
    ensures exists i, j :: 0 <= i <= j <= |s| && t == s[i..j] && IsBlank(s[..i]) && IsBlank(s[j..])
    ensures t != [] ==> !IsTrimmable(t[0]) && !IsTrimmable(t[|t| - 1])
  {
    var lead := TrimLeading(s);
    var t := TrimTrailing(lead);
    CutsLeaveSlice(s, lead, t);
    t
  }

  /**
   * Cutting a blank prefix off `s` (giving `lead`) and then a blank suffix off
   * `lead` (giving `t`) leaves a slice of `s` between two blank ends.
   */
  lemma CutsLeaveSlice(s: string, lead: string, t: string)
    requires |lead| <= |s| && lead == s[|s| - |lead|..]
    requires forall k :: 0 <= k < |s| - |lead| ==> IsTrimmable(s[k])
    requires |t| <= |lead| && t == lead[..|t|]
    requires forall k :: |t| <= k < |lead| ==> IsTrimmable(lead[k])
    ensures exists i, j :: 0 <= i <= j <= |s| && t == s[i..j] && IsBlank(s[..i]) && IsBlank(s[j..])
  {
    var i, j := |s| - |lead|, |s| - |lead| + |t|;
    assert t == s[i..j];
    forall k | 0 <= k < i
      ensures IsTrimmable(s[..i][k])
    {
      assert s[..i][k] == s[k];
    }
    forall k | 0 <= k < |s| - j
      ensures IsTrimmable(s[j..][k])
    {
      assert s[j..][k] == lead[|t| + k];
    }
    assert 0 <= i <= j <= |s| && t == s[i..j] && IsBlank(s[..i]) && IsBlank(s[j..]);
  }

  /** Every character is one `trim()` strips (the empty string included). */
  predicate IsBlank(s: string)
  {
    forall i :: 0 <= i < |s| ==> IsTrimmable(s[i])
  }

  /**
   * `s == null || s.trim().isEmpty()` holds exactly for blank strings (Java
   * strings here are never null), so the checks below use `IsBlank`.
   */
  lemma TrimEmptyIffBlank(s: string)
    ensures Trim(s) == [] <==> IsBlank(s)
  {
  }

  predicate IsAsciiDigit(c: char)
  {
    '0' <= c <= '9'
  }

  predicate IsAsciiLetter(c: char)
  {
    'A' <= c <= 'Z' || 'a' <= c <= 'z'
  }

  /** `s.matches("\\d{10}")`: `\d` is ASCII-only and `matches` consumes the whole string. */
  predicate IsTenDigits(s: string)
  {
    |s| == 10 && forall i :: 0 <= i < |s| ==> IsAsciiDigit(s[i])
  }

  /** The class `[A-Za-z0-9+_.-]` before the '@'. */
  predicate IsEmailLocalChar(c: char)
  {
    IsAsciiLetter(c) || IsAsciiDigit(c) || c == '+' || c == '_' || c == '.' || c == '-'
  }

  /** The characters Java's `.` does not match without DOTALL. */
  predicate IsLineTerminator(c: char)
  {
    c == '\n' || c == '\r' || c == '\U{85}' || c == '\U{2028}' || c == '\U{2029}'
  }

  /** One way for `^[A-Za-z0-9+_.-]+@(.+)$` to match the whole of `s`, with the '@' at index `k`. */
  predicate EmailMatchAt(s: string, k: int)
  {
    0 < k < |s| - 1 && s[k] == '@' &&
    (forall i :: 0 <= i < k ==> IsEmailLocalChar(s[i])) &&
    (forall i :: k < i < |s| ==> !IsLineTerminator(s[i]))
  }

  /** `s.matches("^[A-Za-z0-9+_.-]+@(.+)$")`: some split of `s` matches the pattern. */
  predicate IsEmail(s: string)
  {
    exists k :: 0 < k < |s| - 1 && EmailMatchAt(s, k)
  }

  /** `s.indexOf('@')`, with `|s|` standing for "not found". */
  function IndexOfAt(s: string): (k: nat)
    ensures k <= |s|
    ensures k < |s| ==> s[k] == '@'
    ensures forall i :: 0 <= i < k ==> s[i] != '@'
  {
    if s == [] then 0
    else if s[0] == '@' then 0
    else 1 + IndexOfAt(s[1..])
  }

  /**
   * The pattern can only split at the first '@' (the local part cannot hold
   * one), so the regex match is decided by one deterministic test.
   */
  lemma EmailSplitsAtFirstAt(s: string)
    ensures IsEmail(s) <==> EmailMatchAt(s, IndexOfAt(s))
  {
    if IsEmail(s) {
      var k :| 0 < k < |s| - 1 && EmailMatchAt(s, k);
      forall i | 0 <= i < k ensures s[i] != '@' {
        assert IsEmailLocalChar(s[i]);
      }
      var first := IndexOfAt(s);
      assert !(first < k) && !(k < first);
    }
  }

  /** The pattern is not RFC 5322: later '@' signs are fine, an empty side is not. */
  lemma EmailExamples()
    ensures IsEmail("a@b@c")
    ensures IsEmail("x.y+z@-")
    ensures !IsEmail("@b")
    ensures !IsEmail("a@")
    ensures !IsEmail("a b@c")
    ensures !IsEmail("a@b\n")
  {
    assert EmailMatchAt("a@b@c", 1);
    assert EmailMatchAt("x.y+z@-", 5);
    EmailSplitsAtFirstAt("@b");
    EmailSplitsAtFirstAt("a@");
    EmailSplitsAtFirstAt("a b@c");
    assert !IsEmailLocalChar(' ');
    EmailSplitsAtFirstAt("a@b\n");
    assert "a@b\n"[3] == '\n';
  }

  /**
   * `!(code.length() < 3 || !code.matches("^[a-zA-Z0-9]+$"))`: at least three
   * characters, all ASCII letters or digits.
   */
  predicate IsCode(s: string)
  {
    |s| >= 3 && forall i :: 0 <= i < |s| ==> IsAsciiLetter(s[i]) || IsAsciiDigit(s[i])
  }
}
