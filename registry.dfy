/** The built-in tweak registry and the checkbox list the user picks from:
    built-in tweaks first, then the .ps1/.cmd files of the scripts folder. */
module Registry {
  import opened TextUtil
  import opened Localization

  datatype TweakKind = DnsCloudflare | UltimatePower

  /** A built-in tweak: identifier, which routine runs it, and whether it
      needs administrator rights. Its label is computed per language. */
  datatype Tweak = Tweak(id: string, kind: TweakKind, requiresAdmin: bool)

  const DnsTweakId := "builtin:dns_cloudflare"
  const PowerTweakId := "builtin:power_ultimate"

  /** The two tweaks the window registers, in registration order. */
  const BuiltinTweaks: seq<Tweak> := [
    Tweak(DnsTweakId, DnsCloudflare, true),
    Tweak(PowerTweakId, UltimatePower, true)
  ]

  /** GetDnsLabel and GetUltimatePowerLabel. */
  function Label(kind: TweakKind, m: Messages): string {
    match kind
    case DnsCloudflare => m.dnsLabel
    case UltimatePower => m.powerLabel
  }

  /** The dictionary after `_byId[t.Id] = t` for each tweak in turn: a later
      tweak with the same identifier replaces an earlier one. */
  function IdIndex(tweaks: seq<Tweak>): map<string, Tweak> {
    if tweaks == [] then map[]
    else IdIndex(tweaks[..|tweaks| - 1])[tweaks[|tweaks| - 1].id := tweaks[|tweaks| - 1]]
  }

  /** The registration loop of the window's constructor. */
  method IndexById(tweaks: seq<Tweak>) returns (byId: map<string, Tweak>)
    ensures byId == IdIndex(tweaks)
  {
    byId := map[];
    for i := 0 to |tweaks|
      invariant byId == IdIndex(tweaks[..i])
    {
      assert tweaks[..i + 1][..i] == tweaks[..i];
      byId := byId[tweaks[i].id := tweaks[i]];
    }
    assert tweaks[..|tweaks|] == tweaks;
  }

  /** The dictionary holds exactly the registered identifiers. */
  lemma {:induction false} IdIndexKeys(tweaks: seq<Tweak>)
    ensures forall id :: id in IdIndex(tweaks) <==> exists k :: 0 <= k < |tweaks| && tweaks[k].id == id
  {
    if tweaks != [] {
      var init := tweaks[..|tweaks| - 1];
      IdIndexKeys(init);
      forall id | id in IdIndex(init) ensures exists k :: 0 <= k < |tweaks| && tweaks[k].id == id {
        var k :| 0 <= k < |init| && init[k].id == id;
        assert tweaks[k].id == id;
      }
      forall id | (exists k :: 0 <= k < |tweaks| && tweaks[k].id == id) && id != tweaks[|tweaks| - 1].id
        ensures id in IdIndex(init)
      {
        var k :| 0 <= k < |tweaks| && tweaks[k].id == id;
        assert init[k].id == id;
      }
    }
  }

  /** Each identifier maps to a registered tweak carrying that identifier. */
  lemma {:induction false} IdIndexValues(tweaks: seq<Tweak>)
    ensures forall id :: id in IdIndex(tweaks) ==> IdIndex(tweaks)[id].id == id && IdIndex(tweaks)[id] in tweaks
  {
    if tweaks != [] {
      var init := tweaks[..|tweaks| - 1];
      IdIndexValues(init);
      forall id | id in IdIndex(init) ensures IdIndex(init)[id] in tweaks {
        assert IdIndex(init)[id] in init;
      }
    }
  }

  /** An identifier registered once more later is replaced: the entry is the
      last tweak registered with it. */
  lemma {:induction false} IdIndexLastWins(tweaks: seq<Tweak>, k: nat)
    requires k < |tweaks|
    requires forall j :: k < j < |tweaks| ==> tweaks[j].id != tweaks[k].id
    ensures tweaks[k].id in IdIndex(tweaks) && IdIndex(tweaks)[tweaks[k].id] == tweaks[k]
  {
    if k < |tweaks| - 1 {
      var init := tweaks[..|tweaks| - 1];
      IdIndexLastWins(init, k);
    }
  }

  /** Both built-in identifiers are non-empty and distinct, so each is found
      under its own identifier and nothing else is registered. */
  lemma BuiltinRegistry()
    ensures forall k :: 0 <= k < |BuiltinTweaks| ==> BuiltinTweaks[k].id != ""
    ensures DnsTweakId != PowerTweakId
    ensures IdIndex(BuiltinTweaks) == map[DnsTweakId := BuiltinTweaks[0], PowerTweakId := BuiltinTweaks[1]]
  {
    var b := BuiltinTweaks;
    assert b[..1] == [b[0]] && b[..1][..0] == [];
    assert IdIndex(b[..1]) == map[DnsTweakId := b[0]];
    assert IdIndex(b) == IdIndex(b[..1])[PowerTweakId := b[1]];
  }

  // ----- the checkbox list -----

  /** One entry of the list: its tag (a tweak identifier or a script path),
      the text shown, and whether it is ticked. */
  datatype CheckItem = CheckItem(tag: string, content: string, checked: bool)

  /** The scripts-folder filter: a name ending in .ps1 or .cmd, in any case. */
  predicate IsScriptFile(path: string) {
    EndsWithIgnoreCase(path, ".ps1") || EndsWithIgnoreCase(path, ".cmd")
  }

  /** The filter looks only at the last four characters, and their case does
      not matter. */
  lemma ScriptFilterExamples()
    ensures IsScriptFile("C:\\scripts\\Debloat.PS1")
    ensures IsScriptFile("fix.Cmd")
    ensures !IsScriptFile("notes.ps1.txt")
    ensures !IsScriptFile("cmd")
  {
    assert "C:\\scripts\\Debloat.PS1"[18..] == ".PS1";
    assert "fix.Cmd"[3..] == ".Cmd";
    assert "notes.ps1.txt"[9..] == ".txt";
    assert ToUpperAscii(".txt"[1]) != ToUpperAscii(".ps1"[1]);
    assert ToUpperAscii(".txt"[1]) != ToUpperAscii(".cmd"[1]);
  }

  predicate IsSeparator(c: char) {
    c == '\\' || c == '/'
  }

  /** Path.GetFileName: the text after the last directory separator. */
  function FileName(path: string): (r: string)
    ensures |r| <= |path| && r == path[|path| - |r|..]
    ensures forall i :: 0 <= i < |r| ==> !IsSeparator(r[i])
    ensures |r| < |path| ==> IsSeparator(path[|path| - |r| - 1])
  {
    if path == [] || IsSeparator(path[|path| - 1]) then []
    else FileName(path[..|path| - 1]) + [path[|path| - 1]]
  }

  /** The built-in entries: ticked, tagged with the identifier, labelled in
      the current language. */
  function BuiltinItems(tweaks: seq<Tweak>, m: Messages): (r: seq<CheckItem>)
    ensures |r| == |tweaks|
  {
    seq(|tweaks|, k requires 0 <= k < |tweaks| => CheckItem(tweaks[k].id, Label(tweaks[k].kind, m), true))
  }

  /** The script entries: the files that pass the filter, in folder order,
      ticked, tagged with the full path and showing the file name. */
  function ScriptItems(files: seq<string>): seq<CheckItem> {
    if files == [] then []
    else
      var f := files[|files| - 1];
      ScriptItems(files[..|files| - 1]) + (if IsScriptFile(f) then [CheckItem(f, FileName(f), true)] else [])
  }

  /** Every script entry is ticked, comes from a listed file that passes the
      filter, and shows that file's name. */
  lemma {:induction false} ScriptItemsSound(files: seq<string>)
    ensures forall k :: 0 <= k < |ScriptItems(files)| ==>
      var e := ScriptItems(files)[k];
      e.tag in files && IsScriptFile(e.tag) && e.checked && e.content == FileName(e.tag)
  {
    if files != [] {
      var init := files[..|files| - 1];
      ScriptItemsSound(init);
      var prev := ScriptItems(init);
      forall k | 0 <= k < |prev| ensures prev[k].tag in files {
        assert prev[k].tag in init;
      }
    }
  }

  /** The entries of all files but the last are a prefix of the entries. */
  lemma ScriptItemsExtend(files: seq<string>)
    requires files != []
    ensures ScriptItems(files[..|files| - 1]) <= ScriptItems(files)
  {
  }

  /** The last file, if it passes the filter, gives the last entry. */
  lemma ScriptItemsLast(files: seq<string>)
    requires files != [] && IsScriptFile(files[|files| - 1])
    ensures CheckItem(files[|files| - 1], FileName(files[|files| - 1]), true) in ScriptItems(files)
  {
    var f := files[|files| - 1];
    assert ScriptItems(files) == ScriptItems(files[..|files| - 1]) + [CheckItem(f, FileName(f), true)];
  }

  lemma InPrefix<T>(x: T, a: seq<T>, b: seq<T>)
    requires x in a && a <= b
    ensures x in b
  {
    var i :| 0 <= i < |a| && a[i] == x;
    assert b[i] == x;
  }

  /** The file at position `k`, if it passes the filter, has its entry. */
  lemma {:induction false} ScriptItemsHas(files: seq<string>, k: nat)
    requires k < |files| && IsScriptFile(files[k])
    ensures CheckItem(files[k], FileName(files[k]), true) in ScriptItems(files)
  {
    var n := |files| - 1;
    if k < n {
      var init := files[..n];
      assert init[k] == files[k];
      ScriptItemsHas(init, k);
      ScriptItemsExtend(files);
      InPrefix(CheckItem(files[k], FileName(files[k]), true), ScriptItems(init), ScriptItems(files));
    } else {
      assert k == n;
      ScriptItemsLast(files);
    }
  }

  /** Every listed file that passes the filter has its entry. */
  lemma ScriptItemsComplete(files: seq<string>)
    ensures forall k :: 0 <= k < |files| && IsScriptFile(files[k]) ==>
      CheckItem(files[k], FileName(files[k]), true) in ScriptItems(files)
  {
    forall k | 0 <= k < |files| && IsScriptFile(files[k])
      ensures CheckItem(files[k], FileName(files[k]), true) in ScriptItems(files)
    {
      ScriptItemsHas(files, k);
    }
  }

  /** Every script entry comes from a file that passes the filter and shows
      its name, every passing file has its entry, and the list is empty
      exactly when no file passes, which is when the window shows the "no
      scripts found" hint. */
  lemma ScriptItemsSpec(files: seq<string>)
    ensures forall k :: 0 <= k < |ScriptItems(files)| ==>
      ScriptItems(files)[k].tag in files && IsScriptFile(ScriptItems(files)[k].tag) && ScriptItems(files)[k].checked
    ensures forall k :: 0 <= k < |ScriptItems(files)| ==>
      ScriptItems(files)[k].content == FileName(ScriptItems(files)[k].tag)
    ensures forall k :: 0 <= k < |files| && IsScriptFile(files[k]) ==>
      CheckItem(files[k], FileName(files[k]), true) in ScriptItems(files)
    ensures ScriptItems(files) == [] <==> forall k :: 0 <= k < |files| ==> !IsScriptFile(files[k])
  {
    ScriptItemsSound(files);
    ScriptItemsComplete(files);
    if ScriptItems(files) != [] {
      var tag := ScriptItems(files)[0].tag;
      var k :| 0 <= k < |files| && files[k] == tag;
      assert IsScriptFile(files[k]);
    }
  }

  /** The list follows the folder's order: the entries of two runs of files
      are the entries of the first followed by those of the second. With the
      one-file case below this fixes every entry and its position. */
  lemma {:induction false} ScriptItemsAppend(a: seq<string>, b: seq<string>)
    ensures ScriptItems(a + b) == ScriptItems(a) + ScriptItems(b)
  {
    if b == [] {
      assert a + b == a;
    } else {
      var b' := b[..|b| - 1];
      assert (a + b)[..|a + b| - 1] == a + b' && (a + b)[|a + b| - 1] == b[|b| - 1];
      ScriptItemsAppend(a, b');
    }
  }

  /** A single file gives its ticked entry, tagged with the path and showing
      the file name, when it passes the filter, and nothing otherwise. */
  lemma ScriptItemsSingle(f: string)
    ensures ScriptItems([f]) == if IsScriptFile(f) then [CheckItem(f, FileName(f), true)] else []
  {
    assert [f][..0] == [];
  }

  /** The hint condition "the list has only the built-in entries" holds
      exactly when no file of the folder is a script. */
  lemma OnlyBuiltinsHint(tweaks: seq<Tweak>, m: Messages, files: seq<string>)
    ensures |BuiltinItems(tweaks, m) + ScriptItems(files)| == |tweaks| <==>
      forall k :: 0 <= k < |files| ==> !IsScriptFile(files[k])
  {
    ScriptItemsSpec(files);
  }
}
