/** Character and string helpers standing in for the parts of the .NET string
    library the tweak engine relies on: char.IsWhiteSpace, string.IsNullOrWhiteSpace,
    Trim/TrimEnd, ordinal case-insensitive comparison, string.Join, string.Split
    and StringBuilder.AppendLine. */
module TextUtil {

  datatype Option<+T> = None | Some(value: T)

  /** Environment.NewLine on Windows. */
  const NewLine: string := "\r\n"

  /** char.IsWhiteSpace: the Unicode space, line and paragraph separators
      (categories Zs, Zl, Zp) together with U+0009..U+000D and U+0085. */
  predicate IsWhiteSpace(c: char) {
    || ('\t' <= c <= '\r')
    || c == ' ' || c == '\U{0085}' || c == '\U{00A0}' || c == '\U{1680}'
    || ('\U{2000}' <= c <= '\U{200A}')
    || c == '\U{2028}' || c == '\U{2029}' || c == '\U{202F}' || c == '\U{205F}' || c == '\U{3000}'
  }

  /** string.IsNullOrWhiteSpace for a non-null string. */
  predicate IsBlank(s: string) {
    forall i :: 0 <= i < |s| ==> IsWhiteSpace(s[i])
  }

  /** string.TrimEnd(): drops every trailing white-space character. */
  function TrimEnd(s: string): (r: string)
    ensures r <= s
    ensures r == [] || !IsWhiteSpace(r[|r| - 1])
    ensures forall i :: |r| <= i < |s| ==> IsWhiteSpace(s[i])
  {
    if s != [] && IsWhiteSpace(s[|s| - 1]) then TrimEnd(s[..|s| - 1]) else s
  }

  /** string.TrimStart(): drops every leading white-space character. */
  function TrimStart(s: string): (r: string)
    ensures |r| <= |s| && r == s[|s| - |r|..]
    ensures r == [] || !IsWhiteSpace(r[0])
    ensures forall i :: 0 <= i < |s| - |r| ==> IsWhiteSpace(s[i])
  {
    if s != [] && IsWhiteSpace(s[0]) then TrimStart(s[1..]) else s
  }

  /** string.Trim(). */
  function Trim(s: string): string {
    TrimStart(TrimEnd(s))
  }

  /** A string that is not blank keeps at least one character after trimming. */
  lemma TrimOfNonBlank(s: string)
    requires !IsBlank(s)
    ensures Trim(s) != []
  {
  }

  /** Upper-casing as StringComparison.OrdinalIgnoreCase does it, restricted to ASCII. */
  function ToUpperAscii(c: char): (u: char)
    ensures !('a' <= u <= 'z')
  {
    if 'a' <= c <= 'z' then (c as int - 32) as char else c
  }

  predicate IsAsciiLetter(c: char) {
    ('a' <= c <= 'z') || ('A' <= c <= 'Z')
  }

  /** string.Equals(a, b, StringComparison.OrdinalIgnoreCase). */
  predicate EqualsIgnoreCase(a: string, b: string) {
    |a| == |b| && forall i :: 0 <= i < |a| ==> ToUpperAscii(a[i]) == ToUpperAscii(b[i])
  }

  /** string.EndsWith(suffix, StringComparison.OrdinalIgnoreCase). */
  predicate EndsWithIgnoreCase(s: string, suffix: string) {
    |suffix| <= |s| && EqualsIgnoreCase(s[|s| - |suffix|..], suffix)
  }

  /** Ignoring case changes nothing when the other side holds no letter: such a
      target is matched by exactly one string, itself. */
  lemma EqualsIgnoreCaseLetterFree(x: string, t: string)
    requires forall i :: 0 <= i < |t| ==> !IsAsciiLetter(t[i])
    ensures EqualsIgnoreCase(x, t) <==> x == t
  {
    if EqualsIgnoreCase(x, t) {
      forall i | 0 <= i < |x| ensures x[i] == t[i] {
        assert ToUpperAscii(t[i]) == t[i];
      }
    }
  }

  /** string.Join(sep, parts). */
  function JoinWith(parts: seq<string>, sep: string): string {
    if |parts| == 0 then ""
    else if |parts| == 1 then parts[0]
    else parts[0] + sep + JoinWith(parts[1..], sep)
  }

  /** string.Split(sep) with no options: every separator ends a piece, empty
      pieces included, so there is always at least one piece. */
  function SplitOn(s: string, sep: char): (r: seq<string>)
    ensures |r| >= 1
    ensures forall k :: 0 <= k < |r| ==> sep !in r[k]
  {
    if |s| == 0 then [""]
    else
      var rest := SplitOn(s[1..], sep);
      if s[0] == sep then [""] + rest
      else [[s[0]] + rest[0]] + rest[1..]
  }

  lemma {:induction false} SplitOnSepFree(x: string, sep: char)
    requires sep !in x
    ensures SplitOn(x, sep) == [x]
  {
    if |x| > 0 {
      SplitOnSepFree(x[1..], sep);
      assert [x[0]] + x[1..] == x;
    }
  }

  lemma {:induction false} SplitOnPrefix(x: string, sep: char, t: string)
    requires sep !in x
    ensures SplitOn(x + [sep] + t, sep) == [x] + SplitOn(t, sep)
  {
    if |x| == 0 {
      assert x + [sep] + t == [sep] + t;
      assert ([sep] + t)[1..] == t;
    } else {
      var s := x + [sep] + t;
      assert s[1..] == x[1..] + [sep] + t;
      SplitOnPrefix(x[1..], sep, t);
      assert [x[0]] + x[1..] == x;
    }
  }

  /** Splitting undoes joining when no piece contains the separator. */
  lemma {:induction false} SplitJoin(parts: seq<string>, sep: char)
    requires |parts| >= 1
    requires forall k :: 0 <= k < |parts| ==> sep !in parts[k]
    ensures SplitOn(JoinWith(parts, [sep]), sep) == parts
  {
    if |parts| == 1 {
      SplitOnSepFree(parts[0], sep);
    } else {
      SplitJoin(parts[1..], sep);
      SplitOnPrefix(parts[0], sep, JoinWith(parts[1..], [sep]));
      assert [parts[0]] + parts[1..] == parts;
    }
  }

  /** The text a StringBuilder holds after AppendLine of each line in turn. */
  function AppendLines(lines: seq<string>): string {
    if |lines| == 0 then "" else AppendLines(lines[..|lines| - 1]) + lines[|lines| - 1] + NewLine
  }
}
