/** The DNS verification step: reading the adapter records that the query
    script prints as JSON, deciding whether Cloudflare's malware-blocking
    resolvers are in use, and composing the report. JSON text parsing is not
    modelled; the parser's result is an input. */
module DnsCheck {
  import opened TextUtil
  import opened Localization
  import opened Commands

  /** A JSON value as System.Text.Json exposes it. */
  datatype Json =
    | JNull
    | JTrue
    | JFalse
    | JNumber(literal: string)
    | JString(text: string)
    | JArray(items: seq<Json>)
    | JObject(props: map<string, Json>)

  /** JsonDocument.Parse: the document's root, or the exception for malformed text. */
  datatype ParseOutcome = Parsed(root: Json) | Malformed

  /** Registry.GetValue of ...\Tcpip6\Parameters\DisabledComponents: a DWORD,
      or anything else (missing key, another value type, a read that threw). */
  datatype PolicyValue = DwordValue(value: int) | NotDword

  /** What the verification consumes: the query script's captured run, the
      parser's outcome on its output, and the IPv6 policy value. */
  datatype DnsQuery = DnsQuery(run: CommandResult, parsed: ParseOutcome, policy: PolicyValue)

  /** One active adapter: name and configured IPv4 and IPv6 resolvers. */
  datatype Adapter = Adapter(name: string, ipv4: seq<string>, ipv6: seq<string>)

  datatype DnsResult = DnsResult(ok: bool, report: string)

  const CloudflareIpv4Primary := "1.1.1.2"
  const CloudflareIpv4Secondary := "1.0.0.2"
  const CloudflareIpv6Primary := "2606:4700:4700::1112"
  const CloudflareIpv6Secondary := "2606:4700:4700::1002"

  /** Blank output is read as the text "[]". */
  function EffectiveDocument(q: DnsQuery): ParseOutcome {
    if IsBlank(q.run.stdout) then Parsed(JArray([])) else q.parsed
  }

  // ----- reading the records -----

  /** `GetString() ?? ""`: a string, "" for null, and an exception (None) for
      any other kind of value. */
  function ReadString(e: Json): Option<string> {
    match e
    case JString(text) => Some(text)
    case JNull => Some("")
    case _ => None
  }

  /** Every item of an array through ReadString, failing if one fails. */
  function ReadStrings(items: seq<Json>): (r: Option<seq<string>>)
    ensures r.Some? <==> forall k :: 0 <= k < |items| ==> items[k].JString? || items[k].JNull?
    ensures r.Some? ==> |r.value| == |items|
    ensures r.Some? ==>
      forall k :: 0 <= k < |items| ==> r.value[k] == (if items[k].JString? then items[k].text else "")
  {
    if items == [] then Some([])
    else
      match (ReadStrings(items[..|items| - 1]), ReadString(items[|items| - 1]))
      case (Some(init), Some(last)) => Some(init + [last])
      case _ => None
  }

  /** A server list: the strings of an array-valued property, an empty list
      when the property is missing or not an array. */
  function ReadServers(props: map<string, Json>, key: string): Option<seq<string>> {
    if key in props && props[key].JArray? then ReadStrings(props[key].items) else Some([])
  }

  /** One array element as an adapter record. TryGetProperty throws on an
      element that is not an object, and GetString on a value that is neither
      a string nor null; both are None here. */
  function ReadAdapter(el: Json): Option<Adapter> {
    match el
    case JObject(props) =>
      var name := if "Name" in props then ReadString(props["Name"]) else Some("");
      var v4 := ReadServers(props, "IPv4");
      var v6 := ReadServers(props, "IPv6");
      if name.Some? && v4.Some? && v6.Some? then Some(Adapter(name.value, v4.value, v6.value))
      else None
    case _ => None
  }

  /** All elements in order, failing if one fails. */
  function ReadAdapters(els: seq<Json>): Option<seq<Adapter>> {
    if els == [] then Some([])
    else
      match (ReadAdapters(els[..|els| - 1]), ReadAdapter(els[|els| - 1]))
      case (Some(init), Some(last)) => Some(init + [last])
      case _ => None
  }

  /** The adapters a document yields: None for a parse failure or an
      unreadable element, no adapters for a root that is not an array. */
  function Adapters(doc: ParseOutcome): Option<seq<Adapter>> {
    match doc
    case Malformed => None
    case Parsed(JArray(els)) => ReadAdapters(els)
    case Parsed(_) => Some([])
  }

  // ----- the verdict -----

  /** An IPv4 resolver equal, exactly, to one of Cloudflare's two. */
  predicate HasCloudflareIpv4(v4: seq<string>) {
    exists x :: x in v4 && (x == CloudflareIpv4Primary || x == CloudflareIpv4Secondary)
  }

  /** An IPv6 resolver equal, ignoring case, to one of Cloudflare's two. */
  predicate HasCloudflareIpv6(v6: seq<string>) {
    exists x :: x in v6 &&
      (EqualsIgnoreCase(x, CloudflareIpv6Primary) || EqualsIgnoreCase(x, CloudflareIpv6Secondary))
  }

  predicate UsesCloudflare(a: Adapter) {
    HasCloudflareIpv4(a.ipv4) || HasCloudflareIpv6(a.ipv6)
  }

  predicate AnyCloudflare(ads: seq<Adapter>) {
    exists k :: 0 <= k < |ads| && UsesCloudflare(ads[k])
  }

  predicate AnyIpv6Configured(ads: seq<Adapter>) {
    exists k :: 0 <= k < |ads| && |ads[k].ipv6| > 0
  }

  predicate PolicyDisablesIpv6(p: PolicyValue) {
    p.DwordValue? && p.value != 0
  }

  // ----- the report -----

  function Ipv4Line(a: Adapter): string {
    "• " + a.name + " [IPv4] → " + JoinWith(a.ipv4, ", ")
  }

  function Ipv6Line(a: Adapter): string {
    "  [IPv6] → " + JoinWith(a.ipv6, ", ")
  }

  function AdapterLines(ads: seq<Adapter>): seq<string> {
    if ads == [] then []
    else AdapterLines(ads[..|ads| - 1]) + [Ipv4Line(ads[|ads| - 1]), Ipv6Line(ads[|ads| - 1])]
  }

  /** The policy caveat: an empty line and the note, when no adapter lists an
      IPv6 resolver and the policy value is a non-zero DWORD. */
  function NoteLines(m: Messages, ads: seq<Adapter>, policy: PolicyValue): seq<string> {
    if !AnyIpv6Configured(ads) && PolicyDisablesIpv6(policy) then ["", m.ipv6Note]
    else []
  }

  /** The header, a line break and the collected lines with trailing white
      space trimmed. */
  function ReportText(m: Messages, lines: seq<string>): string {
    m.reportHeader + NewLine + TrimEnd(AppendLines(lines))
  }

  /** The (ok, report) pair VerifyDnsCloudflareAsync returns for a document. */
  function DnsVerification(m: Messages, doc: ParseOutcome, policy: PolicyValue): DnsResult {
    match Adapters(doc)
    case None => DnsResult(false, m.dnsParseFailed)
    case Some(ads) => DnsResult(AnyCloudflare(ads), ReportText(m, AdapterLines(ads) + NoteLines(m, ads, policy)))
  }

  // ----- the loop -----

  lemma AppendNote(body: seq<string>, note: string)
    ensures AppendLines(body + ["", note]) == AppendLines(body) + NewLine + note + NewLine
  {
    var full := body + ["", note];
    assert full[..|full| - 1] == body + [""] && full[|full| - 1] == note;
    assert (body + [""])[..|body|] == body && (body + [""])[|body|] == "";
  }

  lemma AdapterStep(read: seq<Adapter>, a: Adapter)
    ensures AnyCloudflare(read + [a]) == (AnyCloudflare(read) || UsesCloudflare(a))
    ensures AnyIpv6Configured(read + [a]) == (AnyIpv6Configured(read) || |a.ipv6| > 0)
    ensures AppendLines(AdapterLines(read + [a])) ==
      AppendLines(AdapterLines(read)) + Ipv4Line(a) + NewLine + Ipv6Line(a) + NewLine
  {
    var next := read + [a];
    assert next[..|read|] == read && next[|read|] == a;
    if AnyCloudflare(read) {
      var k :| 0 <= k < |read| && UsesCloudflare(read[k]);
      assert UsesCloudflare(next[k]);
    }
    if AnyIpv6Configured(read) {
      var k :| 0 <= k < |read| && |read[k].ipv6| > 0;
      assert |next[k].ipv6| > 0;
    }
    AdapterLinesStep(read, a);
  }

  lemma AdapterLinesStep(read: seq<Adapter>, a: Adapter)
    ensures AppendLines(AdapterLines(read + [a])) ==
      AppendLines(AdapterLines(read)) + Ipv4Line(a) + NewLine + Ipv6Line(a) + NewLine
  {
    var next := read + [a];
    assert next[..|read|] == read && next[|read|] == a;
    var body := AdapterLines(read);
    var lines := body + [Ipv4Line(a), Ipv6Line(a)];
    assert lines[..|lines| - 1] == body + [Ipv4Line(a)];
    assert (body + [Ipv4Line(a)])[..|body|] == body;
  }

  lemma ReadAdaptersStep(els: seq<Json>, i: nat, read: seq<Adapter>)
    requires i < |els| && ReadAdapters(els[..i]) == Some(read)
    ensures ReadAdapters(els[..i + 1]) ==
      if ReadAdapter(els[i]).Some? then Some(read + [ReadAdapter(els[i]).value]) else None
  {
    assert els[..i + 1][..i] == els[..i];
  }

  /** The try block of VerifyDnsCloudflareAsync: parse the document and walk
      an array root's elements, accumulating the Cloudflare and IPv6 flags and
      the adapter lines; it fails, as the catch does, on a parse failure or an
      unreadable element. */
  method ScanAdapters(doc: ParseOutcome) returns (readable: bool, anyCF: bool, anyV6Configured: bool, sb: string)
    ensures readable <==> Adapters(doc).Some?
    ensures readable ==>
      && anyCF == AnyCloudflare(Adapters(doc).value)
      && anyV6Configured == AnyIpv6Configured(Adapters(doc).value)
      && sb == AppendLines(AdapterLines(Adapters(doc).value))
  {
    if doc.Malformed? {
      return false, false, false, "";
    }
    sb := "";
    anyCF := false;
    anyV6Configured := false;
    ghost var read: seq<Adapter> := [];
    if doc.root.JArray? {
      var els := doc.root.items;
      for i := 0 to |els|
        invariant ReadAdapters(els[..i]) == Some(read)
        invariant anyCF == AnyCloudflare(read)
        invariant anyV6Configured == AnyIpv6Configured(read)
        invariant sb == AppendLines(AdapterLines(read))
      {
        ReadAdaptersStep(els, i, read);
        var el := ReadAdapter(els[i]);
        if el.None? {
          ReadAdaptersPrefix(els, i + 1);
          return false, false, false, "";
        }
        var a := el.value;
        anyV6Configured := anyV6Configured || |a.ipv6| > 0;
        var hasCfV4 := HasCloudflareIpv4(a.ipv4);
        var hasCfV6 := HasCloudflareIpv6(a.ipv6);
        anyCF := anyCF || hasCfV4 || hasCfV6;
        sb := sb + Ipv4Line(a) + NewLine;
        sb := sb + Ipv6Line(a) + NewLine;
        AdapterStep(read, a);
        read := read + [a];
      }
      assert els[..|els|] == els;
    }
    readable := true;
    assert Adapters(doc) == Some(read);
  }

  /** VerifyDnsCloudflareAsync after the query has run: the scan, then the
      policy caveat when no adapter lists an IPv6 resolver, then the report
      with its trailing white space trimmed. */
  method EvaluateDnsDocument(m: Messages, doc: ParseOutcome, policy: PolicyValue)
    returns (ok: bool, report: string)
    ensures DnsResult(ok, report) == DnsVerification(m, doc, policy)
  {
    var readable, anyCF, anyV6Configured, sb := ScanAdapters(doc);
    if !readable {
      return false, m.dnsParseFailed;
    }
    ghost var read := Adapters(doc).value;
    if !anyV6Configured && PolicyDisablesIpv6(policy) {
      AppendNote(AdapterLines(read), m.ipv6Note);
      sb := sb + NewLine;
      sb := sb + m.ipv6Note + NewLine;
    } else {
      assert AdapterLines(read) + [] == AdapterLines(read);
    }
    assert sb == AppendLines(AdapterLines(read) + NoteLines(m, read, policy));
    ok := anyCF;
    report := m.reportHeader + NewLine + TrimEnd(sb);
  }

  // ----- properties -----

  /** Reading fails exactly when some element is unreadable; a successful
      read gives one adapter per element, in order. */
  lemma {:induction false} ReadAdaptersShape(els: seq<Json>)
    ensures ReadAdapters(els).None? <==> exists k :: 0 <= k < |els| && ReadAdapter(els[k]).None?
    ensures ReadAdapters(els).Some? ==> |ReadAdapters(els).value| == |els|
    ensures ReadAdapters(els).Some? ==>
      forall k :: 0 <= k < |els| ==> ReadAdapter(els[k]) == Some(ReadAdapters(els).value[k])
  {
    if els != [] {
      var n := |els| - 1;
      var init := els[..n];
      ReadAdaptersShape(init);
      if ReadAdapters(init).None? {
        var k :| 0 <= k < |init| && ReadAdapter(init[k]).None?;
        assert els[k] == init[k];
      } else if ReadAdapter(els[n]).Some? {
        var read := ReadAdapters(init).value + [ReadAdapter(els[n]).value];
        assert ReadAdapters(els) == Some(read);
        forall k | 0 <= k < |els| ensures ReadAdapter(els[k]) == Some(read[k]) {
          if k < n {
            assert els[k] == init[k];
          }
        }
      }
    }
  }

  /** A prefix that fails to read makes the whole list fail. */
  lemma ReadAdaptersPrefix(els: seq<Json>, j: nat)
    requires j <= |els|
    ensures ReadAdapters(els[..j]).None? ==> ReadAdapters(els).None?
  {
    if ReadAdapters(els[..j]).None? {
      ReadAdaptersShape(els[..j]);
      var k :| 0 <= k < j && ReadAdapter(els[..j][k]).None?;
      assert els[..j][k] == els[k];
      ReadAdaptersShape(els);
    }
  }

  /** Reading fails once some element up to `j` fails, and it fails only then;
      a successful read gives one adapter per element, in order. */
  lemma ReadAdaptersFailure(els: seq<Json>, j: nat)
    requires j <= |els|
    ensures ReadAdapters(els[..j]).None? ==> ReadAdapters(els).None?
    ensures ReadAdapters(els).None? <==> exists k :: 0 <= k < |els| && ReadAdapter(els[k]).None?
    ensures ReadAdapters(els).Some? ==>
      |ReadAdapters(els).value| == |els| &&
      forall k :: 0 <= k < |els| ==> ReadAdapter(els[k]) == Some(ReadAdapters(els).value[k])
  {
    ReadAdaptersPrefix(els, j);
    ReadAdaptersShape(els);
  }

  /** The verdict: the document is a JSON array whose every element reads as
      an adapter record, and one of those adapters lists a Cloudflare resolver
      (either family alone is enough). */
  lemma DnsVerdict(m: Messages, doc: ParseOutcome, policy: PolicyValue)
    ensures DnsVerification(m, doc, policy).ok <==>
      && doc.Parsed? && doc.root.JArray?
      && (forall k :: 0 <= k < |doc.root.items| ==> ReadAdapter(doc.root.items[k]).Some?)
      && (exists k :: 0 <= k < |doc.root.items| && UsesCloudflare(ReadAdapter(doc.root.items[k]).value))
  {
    if doc.Parsed? && doc.root.JArray? {
      var els := doc.root.items;
      ReadAdaptersShape(els);
      if ReadAdapters(els).Some? {
        var ads := ReadAdapters(els).value;
        if AnyCloudflare(ads) {
          var k :| 0 <= k < |ads| && UsesCloudflare(ads[k]);
          assert UsesCloudflare(ReadAdapter(els[k]).value);
        }
        if exists k :: 0 <= k < |els| && UsesCloudflare(ReadAdapter(els[k]).value) {
          var k :| 0 <= k < |els| && UsesCloudflare(ReadAdapter(els[k]).value);
          assert UsesCloudflare(ads[k]);
        }
      }
    }
  }

  /** The report never decides the verdict: neither the language nor the IPv6
      policy value changes it. */
  lemma VerdictIgnoresLanguageAndPolicy(m1: Messages, m2: Messages, doc: ParseOutcome, p1: PolicyValue, p2: PolicyValue)
    ensures DnsVerification(m1, doc, p1).ok == DnsVerification(m2, doc, p2).ok
  {
  }

  /** A document that fails to parse, or has an unreadable element, gives
      false and the parse-failure message alone. */
  lemma ParseFailureReport(m: Messages, doc: ParseOutcome, policy: PolicyValue)
    requires doc.Malformed? ||
      (doc.root.JArray? && exists k :: 0 <= k < |doc.root.items| && ReadAdapter(doc.root.items[k]).None?)
    ensures DnsVerification(m, doc, policy) == DnsResult(false, m.dnsParseFailed)
  {
    if doc.Parsed? {
      ReadAdaptersShape(doc.root.items);
    }
  }

  /** Each adapter gives exactly two lines, in input order: its name with its
      IPv4 list, then its IPv6 list. */
  lemma {:induction false} AdapterLinesShape(ads: seq<Adapter>)
    ensures |AdapterLines(ads)| == 2 * |ads|
    ensures forall k :: 0 <= k < |ads| ==>
      AdapterLines(ads)[2 * k] == Ipv4Line(ads[k]) && AdapterLines(ads)[2 * k + 1] == Ipv6Line(ads[k])
  {
    if ads != [] {
      AdapterLinesShape(ads[..|ads| - 1]);
    }
  }

  /** Blank output, an empty array and a root that is not an array all give
      false, and the report holds no adapter line, only the header and
      possibly the policy caveat. */
  lemma NoAdaptersReport(m: Messages, q: DnsQuery)
    requires IsBlank(q.run.stdout) || (q.parsed.Parsed? && (q.parsed.root == JArray([]) || !q.parsed.root.JArray?))
    ensures var r := DnsVerification(m, EffectiveDocument(q), q.policy);
      !r.ok && r.report == ReportText(m, NoteLines(m, [], q.policy))
  {
    assert AdapterLines([]) + NoteLines(m, [], q.policy) == NoteLines(m, [], q.policy);
  }

  /** The caveat is added exactly when no adapter lists an IPv6 resolver and
      the policy value is a non-zero DWORD; it comes after every adapter line. */
  lemma PolicyNotePlacement(m: Messages, ads: seq<Adapter>, policy: PolicyValue)
    ensures var lines := AdapterLines(ads) + NoteLines(m, ads, policy);
      && |lines| >= 2 * |ads| && lines[..2 * |ads|] == AdapterLines(ads)
      && (|lines| > 2 * |ads| <==> (forall k :: 0 <= k < |ads| ==> ads[k].ipv6 == []) && PolicyDisablesIpv6(policy))
  {
    AdapterLinesShape(ads);
    var lines := AdapterLines(ads) + NoteLines(m, ads, policy);
    assert lines[..2 * |ads|] == AdapterLines(ads);
  }

  /** Ignoring case is moot for Cloudflare's IPv6 addresses: they hold no
      letter, so only the exact text matches. */
  lemma Ipv6MatchIsExact(v6: seq<string>)
    ensures HasCloudflareIpv6(v6) <==> CloudflareIpv6Primary in v6 || CloudflareIpv6Secondary in v6
  {
    forall x ensures EqualsIgnoreCase(x, CloudflareIpv6Primary) <==> x == CloudflareIpv6Primary {
      EqualsIgnoreCaseLetterFree(x, CloudflareIpv6Primary);
    }
    forall x ensures EqualsIgnoreCase(x, CloudflareIpv6Secondary) <==> x == CloudflareIpv6Secondary {
      EqualsIgnoreCaseLetterFree(x, CloudflareIpv6Secondary);
    }
  }

  /** Missing fields take their defaults: a missing or null name is "", and a
      missing or non-array IPv4 or IPv6 field is an empty list; only a name or
      list item of another kind makes the element unreadable. */
  lemma ReadAdapterDefaults(props: map<string, Json>)
    ensures ReadAdapter(JObject(props)).Some? <==>
      && ("Name" in props ==> props["Name"].JString? || props["Name"].JNull?)
      && (forall key, j :: key in {"IPv4", "IPv6"} && key in props && props[key].JArray? && 0 <= j < |props[key].items| ==>
            props[key].items[j].JString? || props[key].items[j].JNull?)
    ensures ReadAdapter(JObject(props)).Some? ==>
      var a := ReadAdapter(JObject(props)).value;
      && ("Name" !in props || props["Name"] == JNull ==> a.name == "")
      && ("IPv4" !in props || !props["IPv4"].JArray? ==> a.ipv4 == [])
      && ("IPv6" !in props || !props["IPv6"].JArray? ==> a.ipv6 == [])
  {
  }

  /** The query script emits a single object, not an array, when one adapter
      is up; such a root is read as no adapters, so even a Cloudflare-configured
      adapter fails verification unless it is wrapped in an array. */
  lemma ObjectRootIsNoAdapters(m: Messages, el: Json, policy: PolicyValue)
    requires el.JObject? && ReadAdapter(el).Some? && UsesCloudflare(ReadAdapter(el).value)
    ensures !DnsVerification(m, Parsed(el), policy).ok
    ensures DnsVerification(m, Parsed(JArray([el])), policy).ok
  {
    assert [el][..0] == [];
    assert ReadAdapters([]) == Some([]);
    assert [] + [ReadAdapter(el).value] == [ReadAdapter(el).value];
    assert ReadAdapters([el]) == Some([ReadAdapter(el).value]);
  }

  /** One adapter with both Cloudflare IPv4 resolvers and no IPv6 resolver passes. */
  lemma Ipv4AlonePasses(m: Messages, policy: PolicyValue)
    ensures DnsVerification(m, Parsed(JArray([JObject(map[
      "Name" := JString("Eth0"),
      "IPv4" := JArray([JString("1.1.1.2"), JString("1.0.0.2")]),
      "IPv6" := JArray([])])])), policy).ok
  {
    var el := JObject(map[
      "Name" := JString("Eth0"),
      "IPv4" := JArray([JString("1.1.1.2"), JString("1.0.0.2")]),
      "IPv6" := JArray([])]);
    ReadCloudflareIpv4Pair();
    assert ReadAdapter(el) == Some(Adapter("Eth0", ["1.1.1.2", "1.0.0.2"], []));
    assert "1.1.1.2" in ["1.1.1.2", "1.0.0.2"];
    ObjectRootIsNoAdapters(m, el, policy);
  }

  lemma ReadCloudflareIpv4Pair()
    ensures ReadStrings([JString("1.1.1.2"), JString("1.0.0.2")]) == Some(["1.1.1.2", "1.0.0.2"])
  {
    var v4 := [JString("1.1.1.2"), JString("1.0.0.2")];
    assert v4[..1] == [JString("1.1.1.2")] && [JString("1.1.1.2")][..0] == [];
    assert ReadStrings([JString("1.1.1.2")]) == Some(["1.1.1.2"]) by {
      assert ReadStrings([]) == Some([]);
      assert [] + ["1.1.1.2"] == ["1.1.1.2"];
    }
    assert ["1.1.1.2"] + ["1.0.0.2"] == ["1.1.1.2", "1.0.0.2"];
  }

  /** An adapter whose only Cloudflare resolver is IPv6 passes. */
  lemma Ipv6AlonePasses(m: Messages, policy: PolicyValue)
    ensures DnsVerification(m, Parsed(JArray([JObject(map[
      "Name" := JString("Eth0"),
      "IPv4" := JArray([JString("8.8.8.8")]),
      "IPv6" := JArray([JString("2606:4700:4700::1112")])])])), policy).ok
  {
    var el := JObject(map[
      "Name" := JString("Eth0"),
      "IPv4" := JArray([JString("8.8.8.8")]),
      "IPv6" := JArray([JString("2606:4700:4700::1112")])]);
    assert ReadStrings([JString("8.8.8.8")]) == Some(["8.8.8.8"]) by {
      assert [JString("8.8.8.8")][..0] == [];
      assert ReadStrings([]) == Some([]);
      assert [] + ["8.8.8.8"] == ["8.8.8.8"];
    }
    assert ReadStrings([JString("2606:4700:4700::1112")]) == Some(["2606:4700:4700::1112"]) by {
      assert [JString("2606:4700:4700::1112")][..0] == [];
      assert ReadStrings([]) == Some([]);
      assert [] + ["2606:4700:4700::1112"] == ["2606:4700:4700::1112"];
    }
    assert ReadAdapter(el) == Some(Adapter("Eth0", ["8.8.8.8"], ["2606:4700:4700::1112"]));
    Ipv6MatchIsExact(["2606:4700:4700::1112"]);
    ObjectRootIsNoAdapters(m, el, policy);
  }
}
