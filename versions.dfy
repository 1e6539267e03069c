/** Release-tag parsing and the "newer version available" decision made after
    the latest release's tag name has been fetched. */
module Versions {
  import opened TextUtil

  /** int.MaxValue: a version component must fit a 32-bit signed integer. */
  const Int32Max: int := 0x7fff_ffff

  /** System.Version. Build and Revision are -1 when the text did not give them. */
  datatype Version = Version(major: int, minor: int, build: int, revision: int)

  /** The running application's version, new Version(0, 1, 0). */
  const CurrentVersion := Version(0, 1, 0, -1)

  /** Version.CompareTo: the first component that differs decides, major first. */
  function CompareTo(a: Version, b: Version): (c: int)
    ensures c == -1 || c == 0 || c == 1
    ensures c == 0 <==> a == b
  {
    if a.major != b.major then (if a.major > b.major then 1 else -1)
    else if a.minor != b.minor then (if a.minor > b.minor then 1 else -1)
    else if a.build != b.build then (if a.build > b.build then 1 else -1)
    else if a.revision != b.revision then (if a.revision > b.revision then 1 else -1)
    else 0
  }

  /** The C# operator a > b, which is b < a, which is b.CompareTo(a) < 0. */
  predicate Newer(a: Version, b: Version) {
    CompareTo(b, a) < 0
  }

  /** Strict lexicographic order on (major, minor, build). */
  predicate TripleGreater(a: Version, b: Version) {
    || a.major > b.major
    || (a.major == b.major && a.minor > b.minor)
    || (a.major == b.major && a.minor == b.minor && a.build > b.build)
  }

  /** Between versions with the same revision, ">" is the lexicographic
      (major, minor, build) comparison, and it is a strict order. */
  lemma NewerIsTripleGreater(a: Version, b: Version)
    requires a.revision == b.revision
    ensures Newer(a, b) <==> TripleGreater(a, b)
    ensures !(Newer(a, b) && Newer(b, a))
    ensures a != b ==> Newer(a, b) || Newer(b, a)
  {
  }

  predicate IsAsciiDigit(c: char) {
    '0' <= c <= '9'
  }

  /** The characters ParseVersionFromTag keeps from a tag. */
  predicate KeptInTag(c: char) {
    IsAsciiDigit(c) || c == '.'
  }

  /** The cleaned text: the tag's digits and dots, in order. */
  function KeepVersionChars(s: string): (r: string)
    ensures |r| <= |s|
    ensures forall i :: 0 <= i < |r| ==> KeptInTag(r[i])
  {
    if s == [] then []
    else KeepVersionChars(s[..|s| - 1]) + (if KeptInTag(s[|s| - 1]) then [s[|s| - 1]] else [])
  }

  /** StringSplitOptions.RemoveEmptyEntries. */
  function RemoveEmpty(parts: seq<string>): (r: seq<string>)
    ensures forall k :: 0 <= k < |r| ==> r[k] != [] && r[k] in parts
    ensures forall x :: x in parts && x != [] ==> x in r
  {
    if parts == [] then []
    else (if parts[0] == [] then [] else [parts[0]]) + RemoveEmpty(parts[1..])
  }

  /** RemoveEmpty is the in-order filter: it works piece by piece, so with the
      one-piece case below it determines the result of every list. */
  lemma {:induction false} RemoveEmptyAppend(a: seq<string>, b: seq<string>)
    ensures RemoveEmpty(a + b) == RemoveEmpty(a) + RemoveEmpty(b)
  {
    if a != [] {
      var head := if a[0] == [] then [] else [a[0]];
      assert (a + b)[0] == a[0] && (a + b)[1..] == a[1..] + b;
      assert RemoveEmpty(a + b) == head + RemoveEmpty(a[1..] + b);
      RemoveEmptyAppend(a[1..], b);
      assert RemoveEmpty(a) == head + RemoveEmpty(a[1..]);
      assert head + (RemoveEmpty(a[1..]) + RemoveEmpty(b)) == head + RemoveEmpty(a[1..]) + RemoveEmpty(b);
    } else {
      assert a + b == b;
    }
  }

  /** One piece is kept exactly when it is not empty. */
  lemma RemoveEmptySingle(x: string)
    ensures RemoveEmpty([x]) == if x == [] then [] else [x]
  {
    assert [x][1..] == [];
  }

  /** The list after "while (parts.Count < 3) parts.Add("0")". */
  function PadToThree(parts: seq<string>): (r: seq<string>)
    ensures |r| >= 3
  {
    if |parts| < 3 then parts + seq(3 - |parts|, _ => "0") else parts
  }

  function DigitValue(c: char): nat {
    if IsAsciiDigit(c) then c as int - '0' as int else 0
  }

  /** The number a string of decimal digits denotes. */
  function DigitsValue(s: string): nat {
    if s == [] then 0 else 10 * DigitsValue(s[..|s| - 1]) + DigitValue(s[|s| - 1])
  }

  predicate AllDigits(s: string) {
    forall i :: 0 <= i < |s| ==> IsAsciiDigit(s[i])
  }

  /** One component as Version.TryParse reads it: int.TryParse must succeed and
      give a non-negative value. Only digit strings reach it here; for those
      that means non-empty and at most int.MaxValue. */
  function ParseComponent(s: string): (r: Option<int>)
    ensures r.Some? ==> 0 <= r.value <= Int32Max
  {
    if s != [] && AllDigits(s) && DigitsValue(s) <= Int32Max then Some(DigitsValue(s)) else None
  }

  /** Version.TryParse: two to four dot-separated components, each of which
      must parse. */
  function TryParseVersion(s: string): (r: Option<Version>)
    ensures r.Some? ==> r.value.major >= 0 && r.value.minor >= 0
  {
    var c := SplitOn(s, '.');
    if |c| < 2 || |c| > 4 || exists k :: 0 <= k < |c| && ParseComponent(c[k]).None? then None
    else
      Some(Version(
        ParseComponent(c[0]).value,
        ParseComponent(c[1]).value,
        if |c| > 2 then ParseComponent(c[2]).value else -1,
        if |c| > 3 then ParseComponent(c[3]).value else -1))
  }

  /** What ParseVersionFromTag returns, step for step: keep digits and dots,
      give up on a blank result, split on dots dropping empty pieces, pad with
      "0" to three pieces, keep the first three, join them and parse. */
  function ParseVersion(tag: string): Option<Version> {
    var cleaned := KeepVersionChars(tag);
    if IsBlank(cleaned) then None
    else TryParseVersion(JoinWith(PadToThree(RemoveEmpty(SplitOn(cleaned, '.')))[..3], "."))
  }

  /** ParseVersionFromTag, with its character loop and its padding loop. */
  method ParseVersionFromTag(tag: string) returns (v: Option<Version>)
    ensures v == ParseVersion(tag)
  {
    var sb := "";
    for i := 0 to |tag|
      invariant sb == KeepVersionChars(tag[..i])
    {
      assert tag[..i + 1][..i] == tag[..i];
      if IsAsciiDigit(tag[i]) || tag[i] == '.' {
        sb := sb + [tag[i]];
      }
    }
    assert tag[..|tag|] == tag;
    var cleaned := sb;
    if IsBlank(cleaned) {
      return None;
    }
    var parts := RemoveEmpty(SplitOn(cleaned, '.'));
    ghost var pieces := parts;
    while |parts| < 3
      invariant |pieces| <= |parts|
      invariant parts == pieces + seq(|parts| - |pieces|, _ => "0")
      invariant |pieces| < 3 ==> |parts| <= 3
      invariant |pieces| >= 3 ==> parts == pieces
    {
      parts := parts + ["0"];
    }
    cleaned := JoinWith(parts[..3], ".");
    v := TryParseVersion(cleaned);
  }

  lemma {:induction false} KeepVersionCharsAppend(a: string, b: string)
    ensures KeepVersionChars(a + b) == KeepVersionChars(a) + KeepVersionChars(b)
  {
    if b != [] {
      var b' := b[..|b| - 1];
      assert (a + b)[..|a + b| - 1] == a + b';
      KeepVersionCharsAppend(a, b');
    } else {
      assert a + b == a;
    }
  }

  lemma {:induction false} KeepVersionCharsAll(s: string)
    requires forall i :: 0 <= i < |s| ==> KeptInTag(s[i])
    ensures KeepVersionChars(s) == s
  {
    if s != [] {
      KeepVersionCharsAll(s[..|s| - 1]);
    }
  }

  lemma {:induction false} KeepVersionCharsNone(s: string)
    requires forall i :: 0 <= i < |s| ==> !KeptInTag(s[i])
    ensures KeepVersionChars(s) == []
  {
    if s != [] {
      KeepVersionCharsNone(s[..|s| - 1]);
    }
  }

  // ----- what the parse means -----

  /** The value of piece i after padding: the i-th non-empty piece, or 0. */
  function Piece(p: seq<string>, i: nat): nat {
    if i < |p| then DigitsValue(p[i]) else 0
  }

  /** Some of the first three non-empty pieces exceeds int.MaxValue. */
  predicate Overflows(p: seq<string>) {
    exists i :: 0 <= i < 3 && i < |p| && DigitsValue(p[i]) > Int32Max
  }

  /** The non-empty dot-separated pieces of the tag's digits and dots. */
  function Pieces(tag: string): seq<string> {
    RemoveEmpty(SplitOn(KeepVersionChars(tag), '.'))
  }

  lemma {:induction false} SplitOnChars(s: string, sep: char)
    ensures forall k, j :: 0 <= k < |SplitOn(s, sep)| && 0 <= j < |SplitOn(s, sep)[k]| ==>
      SplitOn(s, sep)[k][j] in s
  {
    if |s| > 0 {
      SplitOnChars(s[1..], sep);
    }
  }

  lemma PiecesAreDigits(tag: string)
    ensures forall k :: 0 <= k < |Pieces(tag)| ==> Pieces(tag)[k] != [] && AllDigits(Pieces(tag)[k])
  {
    var cleaned := KeepVersionChars(tag);
    SplitOnChars(cleaned, '.');
    var sp := SplitOn(cleaned, '.');
    forall k | 0 <= k < |Pieces(tag)| ensures AllDigits(Pieces(tag)[k]) {
      var x := Pieces(tag)[k];
      assert x in sp;
      forall j | 0 <= j < |x| ensures IsAsciiDigit(x[j]) {
        assert x[j] in cleaned;
      }
    }
  }

  lemma BlankKeptIsEmpty(cleaned: string)
    requires forall i :: 0 <= i < |cleaned| ==> KeptInTag(cleaned[i])
    ensures IsBlank(cleaned) <==> cleaned == []
  {
    if cleaned != [] {
      assert !IsWhiteSpace(cleaned[0]);
    }
  }

  /** The first three pieces after padding: non-empty digit strings whose
      values are the pieces' values, 0 for a missing one. */
  lemma PaddedPieces(p: seq<string>)
    requires forall k :: 0 <= k < |p| ==> p[k] != [] && AllDigits(p[k])
    ensures var q := PadToThree(p)[..3];
      forall k :: 0 <= k < 3 ==> q[k] != [] && AllDigits(q[k]) && DigitsValue(q[k]) == Piece(p, k)
  {
    var q := PadToThree(p)[..3];
    forall k | 0 <= k < 3
      ensures q[k] != [] && AllDigits(q[k]) && DigitsValue(q[k]) == Piece(p, k)
    {
      if k >= |p| {
        assert q[k] == "0";
      }
    }
  }

  /** A digit string holds no dot. */
  lemma DigitsHaveNoDot(s: string)
    requires AllDigits(s)
    ensures '.' !in s
  {
    forall j | 0 <= j < |s| ensures s[j] != '.' {
      assert IsAsciiDigit(s[j]);
    }
  }

  /** Three digit pieces joined by dots parse as their values, unless one of
      them exceeds int.MaxValue. */
  lemma TryParseDigitPieces(q: seq<string>)
    requires |q| == 3
    requires forall k :: 0 <= k < 3 ==> q[k] != [] && AllDigits(q[k])
    ensures TryParseVersion(JoinWith(q, ".")) ==
      if exists k :: 0 <= k < 3 && DigitsValue(q[k]) > Int32Max then None
      else Some(Version(DigitsValue(q[0]), DigitsValue(q[1]), DigitsValue(q[2]), -1))
  {
    forall k | 0 <= k < 3 ensures '.' !in q[k] {
      DigitsHaveNoDot(q[k]);
    }
    SplitJoin(q, '.');
    assert SplitOn(JoinWith(q, "."), '.') == q;
    if exists k :: 0 <= k < 3 && DigitsValue(q[k]) > Int32Max {
      var i :| 0 <= i < 3 && DigitsValue(q[i]) > Int32Max;
      assert ParseComponent(q[i]).None?;
    }
  }

  /** ParseVersionFromTag in terms of the tag alone: null when the tag holds no
      digit and no dot, or when one of its first three numeric pieces does not
      fit an int; otherwise major.minor.build taken from those pieces, missing
      ones 0, later ones ignored, and no revision. */
  lemma ParseVersionMeaning(tag: string)
    ensures ParseVersion(tag) ==
      if KeepVersionChars(tag) == [] || Overflows(Pieces(tag)) then None
      else Some(Version(Piece(Pieces(tag), 0), Piece(Pieces(tag), 1), Piece(Pieces(tag), 2), -1))
  {
    var cleaned := KeepVersionChars(tag);
    BlankKeptIsEmpty(cleaned);
    if cleaned != [] {
      var p := Pieces(tag);
      PiecesAreDigits(tag);
      PaddedPieces(p);
      var q := PadToThree(p)[..3];
      TryParseDigitPieces(q);
      assert ParseVersion(tag) == TryParseVersion(JoinWith(q, "."));
      assert Overflows(p) <==> exists k :: 0 <= k < 3 && DigitsValue(q[k]) > Int32Max by {
        if Overflows(p) {
          var i :| 0 <= i < 3 && i < |p| && DigitsValue(p[i]) > Int32Max;
          assert DigitsValue(q[i]) > Int32Max;
        }
      }
    }
  }

  /** A lone major version is padded: "v2" is 2.0.0. */
  lemma ParseVersionPadsMissing()
    ensures ParseVersion("v2") == Some(Version(2, 0, 0, -1))
  {
    var t := "v2";
    PiecesOfMajorOnlyTag();
    assert DigitsValue("2") == 2;
    assert !Overflows(Pieces(t));
    ParseVersionMeaning(t);
  }

  lemma PiecesOfMajorOnlyTag()
    ensures KeepVersionChars("v2") == "2"
    ensures Pieces("v2") == ["2"]
  {
    assert "v2" == "v" + "2";
    KeepVersionCharsAppend("v", "2");
    KeepVersionCharsNone("v");
    KeepVersionCharsAll("2");
    SplitOnSepFree("2", '.');
    assert RemoveEmpty(["2"]) == ["2"];
  }

  lemma KeptOfFourPartTag()
    ensures KeepVersionChars("v1.2.3.4") == "1.2.3.4"
  {
    assert "v1.2.3.4" == "v" + "1.2.3.4";
    KeepVersionCharsAppend("v", "1.2.3.4");
    KeepVersionCharsNone("v");
    KeepVersionCharsAll("1.2.3.4");
  }

  lemma SplitOfFourParts()
    ensures SplitOn("1.2.3.4", '.') == ["1", "2", "3", "4"]
  {
    SplitJoin(["1", "2", "3", "4"], '.');
    assert JoinWith(["1", "2", "3", "4"], ".") == "1.2.3.4";
  }

  lemma NoEmptyInFourParts()
    ensures RemoveEmpty(["1", "2", "3", "4"]) == ["1", "2", "3", "4"]
  {
    var parts := ["1", "2", "3", "4"];
    assert RemoveEmpty(parts[3..]) == ["4"];
    assert RemoveEmpty(parts[2..]) == ["3", "4"];
    assert RemoveEmpty(parts[1..]) == ["2", "3", "4"];
  }

  lemma PiecesOfFourPartTag()
    ensures Pieces("v1.2.3.4") == ["1", "2", "3", "4"]
  {
    KeptOfFourPartTag();
    SplitOfFourParts();
    NoEmptyInFourParts();
  }

  lemma FourPartPieceValues(p: seq<string>)
    requires p == ["1", "2", "3", "4"]
    ensures Piece(p, 0) == 1 && Piece(p, 1) == 2 && Piece(p, 2) == 3 && !Overflows(p)
  {
    assert DigitsValue("1") == 1 && DigitsValue("2") == 2 && DigitsValue("3") == 3;
  }

  /** Components past the third are dropped: "v1.2.3.4" is 1.2.3. */
  lemma ParseVersionDropsFourth()
    ensures ParseVersion("v1.2.3.4") == Some(Version(1, 2, 3, -1))
  {
    var t := "v1.2.3.4";
    PiecesOfFourPartTag();
    FourPartPieceValues(Pieces(t));
    KeptOfFourPartTag();
    ParseVersionMeaning(t);
  }

  /** A tag of a lone dot keeps something, splits into nothing and is 0.0.0. */
  lemma ParseVersionLoneDot()
    ensures ParseVersion(".") == Some(Version(0, 0, 0, -1))
  {
    ParseVersionMeaning(".");
    assert KeepVersionChars(".") == ".";
    SplitJoin(["", ""], '.');
    assert JoinWith(["", ""], ".") == ".";
  }

  /** A tag without digits or dots is null. */
  lemma ParseVersionNoDigits()
    ensures ParseVersion("latest") == None
  {
    var l := "latest";
    KeepVersionCharsNone(l);
    assert KeepVersionChars(l) == [];
  }

  // ----- the update decision -----

  /** An update is flagged when the tag parses and is newer than 0.1.0. */
  predicate UpdateAvailable(tag: string) {
    match ParseVersion(tag)
    case Some(v) => Newer(v, CurrentVersion)
    case None => false
  }

  /** The update flag in terms of the tag: it has digits or dots, none of its
      first three pieces overflows, and (major, minor, build) is
      lexicographically above (0, 1, 0). */
  lemma UpdateAvailableIff(tag: string)
    ensures UpdateAvailable(tag) <==>
      KeepVersionChars(tag) != [] && !Overflows(Pieces(tag)) &&
      TripleGreater(Version(Piece(Pieces(tag), 0), Piece(Pieces(tag), 1), Piece(Pieces(tag), 2), -1), CurrentVersion)
  {
    ParseVersionMeaning(tag);
    if KeepVersionChars(tag) != [] && !Overflows(Pieces(tag)) {
      NewerIsTripleGreater(Version(Piece(Pieces(tag), 0), Piece(Pieces(tag), 1), Piece(Pieces(tag), 2), -1), CurrentVersion);
    }
  }

  lemma BlankKeepsNothing(s: string)
    requires IsBlank(s)
    ensures KeepVersionChars(s) == []
  {
    forall i | 0 <= i < |s| ensures !KeptInTag(s[i]) {
      assert IsWhiteSpace(s[i]);
    }
    KeepVersionCharsNone(s);
  }

  /** A blank tag never flags an update, so the early return on a blank tag
      hides the badge exactly as the comparison would have. */
  lemma BlankTagIsNoUpdate(tag: string)
    requires IsBlank(tag)
    ensures !UpdateAvailable(tag)
  {
    BlankKeepsNothing(tag);
  }

  /** The update-badge state: whether an update is known and whether the
      badge shows. */
  datatype UpdateState = UpdateState(updateAvailable: bool, badgeVisible: bool)

  /** CheckForUpdatesAsync after the HTTP exchange. `tagName` is the release's
      tag_name, or None when the request failed, the status was not a success
      or the field was missing or not a string. Without a usable tag only the
      badge is hidden; with one, the flag is recomputed and the badge follows it. */
  function CheckForUpdates(previous: bool, tagName: Option<string>): (s: UpdateState)
    ensures s.badgeVisible ==> s.updateAvailable
    ensures tagName.Some? && !IsBlank(tagName.value) ==>
      s.updateAvailable == s.badgeVisible == UpdateAvailable(tagName.value)
    ensures tagName.None? || IsBlank(tagName.value) ==> s == UpdateState(previous, false)
  {
    match tagName
    case None => UpdateState(previous, false)
    case Some(tag) =>
      if IsBlank(tag) then UpdateState(previous, false)
      else UpdateState(UpdateAvailable(tag), UpdateAvailable(tag))
  }
}
