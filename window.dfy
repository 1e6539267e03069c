/** The main window's tweak engine: registration, the checkbox list, the run
    loop, the two apply routines with their verification, and the elevated
    runner. Widgets are replaced by the state they hold: the log, the list
    entries and the messages of the selected language. */
module Window {
  import opened TextUtil
  import opened Localization
  import opened Commands
  import opened DnsCheck
  import opened Registry

  /** The system's answers for one list entry, consulted only if the run
      reaches the entry and only for what its routine asks: the branch the
      tweak's script takes, the DNS query, the active-scheme query, or the
      external script's run. */
  datatype ItemEnv = ItemEnv(path: ExecutionPath, dns: DnsQuery, activeScheme: CommandResult, script: CommandResult)

  /** A routine the run started: a built-in tweak with its result, or an
      external script, each with the position of its entry. */
  datatype Action = RanTweak(index: nat, id: string, ok: bool) | RanScript(index: nat, path: string)

  // ----- the apply routines as values -----

  /** ApplyDnsCloudflareAsync's result: the script ran successfully and the
      independent verification confirmed Cloudflare resolvers. */
  predicate DnsApplied(m: Messages, path: ExecutionPath, q: DnsQuery) {
    Executed(path) && DnsVerification(m, EffectiveDocument(q), q.policy).ok
  }

  function VerifyLines(m: Messages, q: DnsQuery): seq<string> {
    WarningLines(q.run.stderr) + [DnsVerification(m, EffectiveDocument(q), q.policy).report]
  }

  /** What ApplyDnsCloudflareAsync logs before verifying: the intent, the
      branch's own lines, and the rights/command warning when the elevated
      branch failed. */
  function DnsRunLines(m: Messages, path: ExecutionPath): seq<string> {
    [m.dnsApplying] + ExecutionLines(m, path)
    + (if path.Elevated? && !Executed(path) then [m.dnsAdminFailed] else [])
  }

  /** Everything ApplyDnsCloudflareAsync logs: the run's lines, then the
      verification's warning and report. */
  function DnsApplyLines(m: Messages, path: ExecutionPath, q: DnsQuery): seq<string> {
    DnsRunLines(m, path) + VerifyLines(m, q)
  }

  /** What ApplyUltimatePerformanceAsync logs: the intent, the branch's own
      lines, the active-scheme query's warning and output, and a failure line
      when the script did not run successfully. */
  function PowerApplyLines(m: Messages, path: ExecutionPath, active: CommandResult): seq<string> {
    [m.powerCreating] + ExecutionLines(m, path) + ActiveSchemeLines(active)
    + (if Executed(path) then [] else [m.powerFailed])
  }

  /** The active-scheme query's warning, then its trimmed output. */
  function ActiveSchemeLines(active: CommandResult): seq<string> {
    WarningLines(active.stderr) + (if IsBlank(active.stdout) then [] else [Trim(active.stdout)])
  }

  predicate TweakOk(m: Messages, kind: TweakKind, env: ItemEnv) {
    match kind
    case DnsCloudflare => DnsApplied(m, env.path, env.dns)
    case UltimatePower => Executed(env.path)
  }

  function TweakLines(m: Messages, kind: TweakKind, env: ItemEnv): seq<string> {
    match kind
    case DnsCloudflare => DnsApplyLines(m, env.path, env.dns)
    case UltimatePower => PowerApplyLines(m, env.path, env.activeScheme)
  }

  /** A clean exit is not trusted for DNS: when verification fails the tweak
      fails whatever the exit code. The power-plan tweak has no such gate: its
      result is the execution flag, whatever the active-scheme query printed. */
  lemma ApplyResultCombination(m: Messages, path: ExecutionPath, q: DnsQuery, a1: CommandResult, a2: CommandResult)
    ensures DnsApplied(m, path, q) ==> Executed(path)
    ensures !DnsVerification(m, EffectiveDocument(q), q.policy).ok ==> !DnsApplied(m, path, q)
    ensures TweakOk(m, UltimatePower, ItemEnv(path, q, a1, a1)) == TweakOk(m, UltimatePower, ItemEnv(path, q, a2, a2)) == Executed(path)
  {
  }

  // ----- the run -----

  predicate AnySelected(items: seq<CheckItem>) {
    exists k :: 0 <= k < |items| && items[k].checked
  }

  /** A registered tweak's pass: its heading, the tweak's own lines, and the
      warning when the tweak reports failure. */
  function TweakPassLines(m: Messages, content: string, kind: TweakKind, env: ItemEnv): seq<string> {
    ["▶ " + content + " ..."] + TweakLines(m, kind, env)
    + (if TweakOk(m, kind, env) then [] else [m.tweakWarning])
  }

  /** An external script's pass: its heading, then its output and warning. */
  function ScriptPassLines(content: string, script: CommandResult): seq<string> {
    ["▶ Running " + content + " ..."] + OutputLines(script)
  }

  /** The lines one entry adds when the run reaches it. */
  function ItemLines(m: Messages, byId: map<string, Tweak>, item: CheckItem, env: ItemEnv): seq<string> {
    if !item.checked then []
    else if item.tag in byId then TweakPassLines(m, item.content, byId[item.tag].kind, env)
    else ScriptPassLines(item.content, env.script)
  }

  function ItemsLines(m: Messages, byId: map<string, Tweak>, items: seq<CheckItem>, envs: seq<ItemEnv>): seq<string>
    requires |envs| == |items|
  {
    if items == [] then []
    else
      var n := |items| - 1;
      ItemsLines(m, byId, items[..n], envs[..n]) + ItemLines(m, byId, items[n], envs[n])
  }

  /** The routine started for entry `index`, if it is ticked. */
  function ItemAction(m: Messages, byId: map<string, Tweak>, item: CheckItem, env: ItemEnv, index: nat): seq<Action> {
    if !item.checked then []
    else if item.tag in byId then [RanTweak(index, item.tag, TweakOk(m, byId[item.tag].kind, env))]
    else [RanScript(index, item.tag)]
  }

  function Dispatch(m: Messages, byId: map<string, Tweak>, items: seq<CheckItem>, envs: seq<ItemEnv>): seq<Action>
    requires |envs| == |items|
  {
    if items == [] then []
    else
      var n := |items| - 1;
      Dispatch(m, byId, items[..n], envs[..n]) + ItemAction(m, byId, items[n], envs[n], n)
  }

  /** The positions of the ticked entries, in list order. */
  function CheckedIndices(items: seq<CheckItem>): seq<nat> {
    if items == [] then []
    else
      var n := |items| - 1;
      CheckedIndices(items[..n]) + (if items[n].checked then [n] else [])
  }

  function BackupFileName(timestamp: string): string {
    "backup_" + timestamp + ".reg"
  }

  /** The lines logged before the first entry: the backup's announcement, the
      output of the registry export, and its confirmation. */
  function BackupLines(timestamp: string, backupRun: CommandResult): seq<string> {
    ["Starting backup..."] + OutputLines(backupRun) + ["✅ Backup saved: " + BackupFileName(timestamp)]
  }

  const FinishedLine := "✨ All selected tweaks applied!"

  lemma {:induction false} CheckedIndicesSpec(items: seq<CheckItem>)
    ensures forall k :: k in CheckedIndices(items) <==> 0 <= k < |items| && items[k].checked
    ensures forall i, j :: 0 <= i < j < |CheckedIndices(items)| ==> CheckedIndices(items)[i] < CheckedIndices(items)[j]
  {
    if items != [] {
      var n := |items| - 1;
      var prev := CheckedIndices(items[..n]);
      CheckedIndicesSpec(items[..n]);
      forall k | 0 <= k < n ensures items[..n][k] == items[k] {
      }
      forall j | 0 <= j < |prev| ensures prev[j] < n {
        assert prev[j] in prev;
      }
    }
  }

  /** The routine started for the entry at position `k` is the one its tag
      calls for: a registered identifier runs its tweak, with that tweak's
      result, and any other tag runs as an external script. */
  predicate StartedFor(m: Messages, byId: map<string, Tweak>, item: CheckItem, env: ItemEnv, k: nat, a: Action) {
    && a.index == k
    && (a.RanTweak? <==> item.tag in byId)
    && (a.RanTweak? ==> a.id == item.tag && a.ok == TweakOk(m, byId[item.tag].kind, env))
    && (a.RanScript? ==> a.path == item.tag)
  }

  /** The run visits the ticked entries one by one in list order, whatever
      earlier routines returned: a registered identifier runs its tweak (and
      the tweak's result is recorded), any other tag runs as an external
      script. */
  lemma {:induction false} DispatchFollowsList(m: Messages, byId: map<string, Tweak>, items: seq<CheckItem>, envs: seq<ItemEnv>)
    requires |envs| == |items|
    ensures |Dispatch(m, byId, items, envs)| == |CheckedIndices(items)|
    ensures forall j :: 0 <= j < |CheckedIndices(items)| ==>
      && CheckedIndices(items)[j] < |items|
      && StartedFor(m, byId, items[CheckedIndices(items)[j]], envs[CheckedIndices(items)[j]],
                    CheckedIndices(items)[j], Dispatch(m, byId, items, envs)[j])
  {
    if items != [] {
      var n := |items| - 1;
      var init, initEnvs := items[..n], envs[..n];
      DispatchFollowsList(m, byId, init, initEnvs);
      CheckedIndicesSpec(init);
      var prev := CheckedIndices(init);
      var before := Dispatch(m, byId, init, initEnvs);
      var last := ItemAction(m, byId, items[n], envs[n], n);
      var all := CheckedIndices(items);
      assert all == prev + (if items[n].checked then [n] else []);
      assert Dispatch(m, byId, items, envs) == before + last;
      forall j | 0 <= j < |all|
        ensures all[j] < |items|
        ensures StartedFor(m, byId, items[all[j]], envs[all[j]], all[j], (before + last)[j])
      {
        if j < |prev| {
          var k := prev[j];
          assert k in prev;
          assert items[k] == init[k] && envs[k] == initEnvs[k];
          assert StartedFor(m, byId, init[k], initEnvs[k], k, before[j]);
        }
      }
    }
  }

  /** With nothing ticked the run starts nothing. */
  lemma {:induction false} NothingSelectedRunsNothing(items: seq<CheckItem>)
    requires !AnySelected(items)
    ensures CheckedIndices(items) == []
  {
    if items != [] {
      var n := |items| - 1;
      assert !items[n].checked;
      forall k | 0 <= k < n ensures !items[..n][k].checked {
        assert items[..n][k] == items[k];
      }
      NothingSelectedRunsNothing(items[..n]);
    }
  }

  /** One more entry extends the log and the started routines by that entry's. */
  lemma RunStep(m: Messages, byId: map<string, Tweak>, items: seq<CheckItem>, envs: seq<ItemEnv>, i: nat)
    requires |envs| == |items| && i < |items|
    ensures ItemsLines(m, byId, items[..i + 1], envs[..i + 1])
      == ItemsLines(m, byId, items[..i], envs[..i]) + ItemLines(m, byId, items[i], envs[i])
    ensures Dispatch(m, byId, items[..i + 1], envs[..i + 1])
      == Dispatch(m, byId, items[..i], envs[..i]) + ItemAction(m, byId, items[i], envs[i], i)
  {
    assert items[..i + 1][..i] == items[..i] && envs[..i + 1][..i] == envs[..i];
  }

  lemma BuiltinItemsStep(tweaks: seq<Tweak>, m: Messages, k: nat)
    requires k < |tweaks|
    ensures BuiltinItems(tweaks[..k + 1], m)
      == BuiltinItems(tweaks[..k], m) + [CheckItem(tweaks[k].id, Label(tweaks[k].kind, m), true)]
  {
  }

  /** One more file of the folder adds its entry when it passes the filter. */
  lemma ScriptItemsStep(files: seq<string>, i: nat)
    requires i < |files|
    ensures ScriptItems(files[..i + 1]) == ScriptItems(files[..i]) +
      if IsScriptFile(files[i]) then [CheckItem(files[i], FileName(files[i]), true)] else []
  {
    assert files[..i + 1][..i] == files[..i];
  }

  /** The loop over the built-in tweaks: one checked entry each, in order,
      tagged with the tweak's identifier and labelled in the selected language. */
  method BuiltinEntries(tweaks: seq<Tweak>, m: Messages) returns (entries: seq<CheckItem>)
    ensures entries == BuiltinItems(tweaks, m)
  {
    entries := [];
    for k := 0 to |tweaks|
      invariant entries == BuiltinItems(tweaks[..k], m)
    {
      BuiltinItemsStep(tweaks, m, k);
      entries := entries + [CheckItem(tweaks[k].id, Label(tweaks[k].kind, m), true)];
    }
    assert tweaks[..|tweaks|] == tweaks;
  }

  /** The loop over the folder's files: one checked entry per .ps1 or .cmd
      file, in the folder's order, tagged with the path and labelled with the
      file name. */
  method ScriptEntries(files: seq<string>) returns (entries: seq<CheckItem>)
    ensures entries == ScriptItems(files)
  {
    entries := [];
    for i := 0 to |files|
      invariant entries == ScriptItems(files[..i])
    {
      ScriptItemsStep(files, i);
      var file := files[i];
      if IsScriptFile(file) {
        entries := entries + [CheckItem(file, FileName(file), true)];
      }
    }
    assert files[..|files|] == files;
  }

  /** Regrouping of appended log segments. */
  lemma AppendAssoc<T>(a: seq<T>, b: seq<T>, c: seq<T>)
    ensures a + b + c == a + (b + c)
  {
  }

  // ----- the window -----

  class MainWindow {
    /** The messages in the selected language: Localization.MessagesIn of
        LanguageOf(CurrentLang(selection)), looked up once when the window is
        built since no modelled operation changes the selection. */
    var messages: Messages
    /** _builtins and _byId. */
    var builtins: seq<Tweak>
    var byId: map<string, Tweak>
    /** ScriptList.Children. */
    var items: seq<CheckItem>
    /** LogBox's messages (timestamps are not modelled). */
    var log: seq<string>
    /** The temporary .ps1 files that exist; names are drawn from a counter
        standing in for fresh GUIDs. */
    var tempFiles: set<nat>
    var tempCounter: nat

    ghost predicate Valid()
      reads this`builtins, this`byId, this`tempFiles, this`tempCounter
    {
      && builtins == BuiltinTweaks
      && byId == IdIndex(builtins)
      && (forall f :: f in tempFiles ==> f < tempCounter)
    }

    /** Registers the built-in tweaks, indexes them by identifier and fills
      the list from the scripts folder's files. */
    constructor (messages: Messages, scriptFiles: seq<string>)
      ensures Valid()
      ensures this.messages == messages && tempFiles == {}
      ensures items == BuiltinItems(BuiltinTweaks, messages) + ScriptItems(scriptFiles)
      ensures log == if ScriptItems(scriptFiles) == [] then [messages.noScripts] else []
    {
      this.messages := messages;
      builtins := [];
      byId := map[];
      items := [];
      log := [];
      tempFiles := {};
      tempCounter := 0;
      new;
      RegisterBuiltins();
      LoadScripts(true, scriptFiles);
    }

    /** The constructor's registration: the two built-in tweaks in order, then
      the identifier index over them. */
    method RegisterBuiltins()
      requires tempFiles == {}
      modifies this`builtins, this`byId
      ensures Valid()
    {
      builtins := [];
      builtins := builtins + [Tweak(DnsTweakId, DnsCloudflare, true)];
      builtins := builtins + [Tweak(PowerTweakId, UltimatePower, true)];
      byId := IndexById(builtins);
    }

    method Log(msg: string)
      modifies this`log
      ensures log == old(log) + [msg]
    {
      log := log + [msg];
    }

    /** Rebuilds the list: the built-in entries, then every file that passes
      the script filter; logs the "no scripts" hint when only built-in
      entries remain and the caller asks for it. */
    method LoadScripts(showEmptyMessage: bool, scriptFiles: seq<string>)
      requires Valid()
      modifies this`items, this`log
      ensures items == BuiltinItems(builtins, messages) + ScriptItems(scriptFiles)
      ensures log == old(log) +
        if |items| == |builtins| && showEmptyMessage then [messages.noScripts] else []
      ensures |items| == |builtins| <==> ScriptItems(scriptFiles) == []
    {
      var entries := BuiltinEntries(builtins, messages);
      var scripts := ScriptEntries(scriptFiles);
      entries := entries + scripts;
      items := entries;
      if |items| == |builtins| && showEmptyMessage {
        Log(messages.noScripts);
      }
    }

    /** The warning every captured run logs for a non-blank standard error:
      "⚠ " and the trimmed text. */
    method LogWarning(stderr: string)
      modifies this`log
      ensures log == old(log) + WarningLines(stderr)
    {
      if !IsBlank(stderr) {
        Log("⚠ " + Trim(stderr));
      }
    }

    /** WriteTempPs1: a new temporary file under a fresh name. */
    method WriteTempScript() returns (f: nat)
      requires Valid()
      modifies this`tempFiles, this`tempCounter
      ensures Valid() && f !in old(tempFiles) && tempFiles == old(tempFiles) + {f}
    {
      f := tempCounter;
      tempCounter := tempCounter + 1;
      tempFiles := tempFiles + {f};
    }

    /** TryDelete. */
    method TryDelete(f: nat)
      requires Valid()
      modifies this`tempFiles
      ensures Valid() && tempFiles == old(tempFiles) - {f}
    {
      tempFiles := tempFiles - {f};
    }

    /** A script written to a temporary file and run with captured output:
      the file is deleted and a non-blank standard error is logged. */
    method RunTempScript(run: CommandResult)
      requires Valid()
      modifies this`log, this`tempFiles, this`tempCounter
      ensures Valid() && tempFiles == old(tempFiles)
      ensures log == old(log) + WarningLines(run.stderr)
    {
      var path := WriteTempScript();
      TryDelete(path);
      LogWarning(run.stderr);
    }

    /** RunPowerShell: logs the trimmed output and the standard-error warning. */
    method RunPowerShell(run: CommandResult)
      modifies this`log
      ensures log == old(log) + OutputLines(run)
    {
      ghost var log0 := log;
      ghost var out: seq<string> := if IsBlank(run.stdout) then [] else [Trim(run.stdout)];
      if !IsBlank(run.stdout) {
        Log(Trim(run.stdout));
      }
      assert log == log0 + out;
      LogWarning(run.stderr);
      AppendAssoc(log0, out, WarningLines(run.stderr));
    }

    /** RunPowerShellElevated: true only for an elevated run that exited with
      0; a declined prompt and any other exception are logged differently;
      the temporary script is deleted on every outcome. */
    method RunPowerShellElevated(outcome: ElevationOutcome) returns (ok: bool)
      requires Valid()
      modifies this`log, this`tempFiles, this`tempCounter
      ensures Valid() && tempFiles == old(tempFiles)
      ensures ok == ElevationSucceeded(outcome)
      ensures log == old(log) + ElevationLines(messages, outcome)
    {
      var path := WriteTempScript();
      match outcome {
        case NotStarted =>
          ok := false;
        case Exited(code) =>
          ok := code == 0;
        case UacCancelled =>
          Log(messages.uacDenied);
          ok := false;
        case Failed(message) =>
          Log("⚠ " + message);
          ok := false;
      }
      TryDelete(path);
    }

    /** The IsAdministrator() branch both apply routines share: a captured
      run when already elevated, RunPowerShellElevated otherwise. */
    method RunTweakScript(path: ExecutionPath) returns (executed: bool)
      requires Valid()
      modifies this`log, this`tempFiles, this`tempCounter
      ensures Valid() && tempFiles == old(tempFiles)
      ensures executed == Executed(path)
      ensures log == old(log) + ExecutionLines(messages, path)
    {
      match path {
        case AsAdministrator(run) =>
          RunTempScript(run);
          executed := run.exitCode == 0;
        case Elevated(outcome) =>
          executed := RunPowerShellElevated(outcome);
      }
    }

    /** VerifyDnsCloudflareAsync: runs the query script, reads blank output as
      "[]" and evaluates the document. */
    method VerifyDnsCloudflare(q: DnsQuery) returns (ok: bool, report: string)
      requires Valid()
      modifies this`log, this`tempFiles, this`tempCounter
      ensures Valid() && tempFiles == old(tempFiles)
      ensures log == old(log) + WarningLines(q.run.stderr)
      ensures DnsResult(ok, report) == DnsVerification(messages, EffectiveDocument(q), q.policy)
    {
      RunTempScript(q.run);
      var doc := q.parsed;
      if IsBlank(q.run.stdout) {
        doc := Parsed(JArray([]));
      }
      ok, report := EvaluateDnsDocument(messages, doc, q.policy);
    }

    /** ApplyDnsCloudflareAsync: runs the resolver script directly when
      already administrator and elevated otherwise, always verifies, and
      succeeds only if both the run and the verification did. */
    method ApplyDnsCloudflare(path: ExecutionPath, q: DnsQuery) returns (ok: bool)
      requires Valid()
      modifies this`log, this`tempFiles, this`tempCounter
      ensures Valid() && tempFiles == old(tempFiles)
      ensures log == old(log) + DnsApplyLines(messages, path, q)
      ensures ok == DnsApplied(messages, path, q)
    {
      ghost var log0 := log;
      ghost var intent := [messages.dnsApplying];
      Log(messages.dnsApplying);
      var executed := RunTweakScript(path);
      AppendAssoc(log0, intent, ExecutionLines(messages, path));
      ghost var log1 := log;
      ghost var failure: seq<string> := if path.Elevated? && !executed then [messages.dnsAdminFailed] else [];
      if path.Elevated? && !executed {
        Log(messages.dnsAdminFailed);
      }
      assert log == log1 + failure;
      AppendAssoc(log0, intent + ExecutionLines(messages, path), failure);
      assert log == log0 + DnsRunLines(messages, path);
      ghost var log2 := log;
      var verified, report := VerifyDnsCloudflare(q);
      Log(report);
      AppendAssoc(log2, WarningLines(q.run.stderr), [report]);
      AppendAssoc(log0, DnsRunLines(messages, path), VerifyLines(messages, q));
      ok := executed && verified;
    }

    /** ApplyUltimatePerformanceAsync: runs the power-plan script the same
      way, logs the active scheme, and returns the execution flag alone. */
    method ApplyUltimatePerformance(path: ExecutionPath, active: CommandResult) returns (ok: bool)
      requires Valid()
      modifies this`log, this`tempFiles, this`tempCounter
      ensures Valid() && tempFiles == old(tempFiles)
      ensures log == old(log) + PowerApplyLines(messages, path, active)
      ensures ok == Executed(path)
    {
      ghost var log0 := log;
      ghost var intent := [messages.powerCreating];
      Log(messages.powerCreating);
      var executed := RunTweakScript(path);
      AppendAssoc(log0, intent, ExecutionLines(messages, path));
      ghost var run := intent + ExecutionLines(messages, path);
      LogActiveScheme(active);
      AppendAssoc(log0, run, ActiveSchemeLines(active));
      ghost var log3 := log;
      ghost var failure: seq<string> := if executed then [] else [messages.powerFailed];
      if !executed {
        Log(messages.powerFailed);
      }
      assert log == log3 + failure;
      AppendAssoc(log0, run + ActiveSchemeLines(active), failure);
      ok := executed;
    }

    /** The active-scheme query's report: its standard-error warning, then
      its trimmed output. */
    method LogActiveScheme(active: CommandResult)
      modifies this`log
      ensures log == old(log) + ActiveSchemeLines(active)
    {
      ghost var log0 := log;
      LogWarning(active.stderr);
      ghost var log1 := log;
      ghost var out: seq<string> := if IsBlank(active.stdout) then [] else [Trim(active.stdout)];
      if !IsBlank(active.stdout) {
        Log(Trim(active.stdout));
      }
      assert log == log1 + out;
      AppendAssoc(log0, WarningLines(active.stderr), out);
    }

    /** tweak.RunAsync(): the routine registered for the tweak's kind. */
    method RunTweak(tweak: Tweak, env: ItemEnv) returns (ok: bool)
      requires Valid()
      modifies this`log, this`tempFiles, this`tempCounter
      ensures Valid() && tempFiles == old(tempFiles)
      ensures log == old(log) + TweakLines(messages, tweak.kind, env)
      ensures ok == TweakOk(messages, tweak.kind, env)
    {
      match tweak.kind {
        case DnsCloudflare =>
          ok := ApplyDnsCloudflare(env.path, env.dns);
        case UltimatePower =>
          ok := ApplyUltimatePerformance(env.path, env.activeScheme);
      }
    }

    /** RunButton_Click. With nothing ticked it only returns the notice to
      show. Otherwise it backs up the registry, then walks the entries in
      order: a registered identifier runs its tweak and a failure adds a
      warning before the walk goes on; any other entry runs as an external
      script. */
    method RunButtonClick(timestamp: string, backupRun: CommandResult, envs: seq<ItemEnv>)
      returns (notice: Option<string>, actions: seq<Action>)
      requires Valid() && |envs| == |items|
      modifies this`log, this`tempFiles, this`tempCounter
      ensures Valid() && tempFiles == old(tempFiles)
      ensures !AnySelected(items) ==>
        notice == Some(messages.selectAtLeastOne) && actions == [] && log == old(log)
      ensures AnySelected(items) ==>
        && notice == None
        && actions == Dispatch(messages, byId, items, envs)
        && log == old(log) + BackupLines(timestamp, backupRun) + ItemsLines(messages, byId, items, envs) + [FinishedLine]
    {
      if !AnySelected(items) {
        return Some(messages.selectAtLeastOne), [];
      }
      notice := None;
      ghost var log0 := log;
      BackUpRegistry(timestamp, backupRun);
      ghost var start := log;
      actions := [];
      for i := 0 to |items|
        invariant Valid() && tempFiles == old(tempFiles)
        invariant log == start + ItemsLines(messages, byId, items[..i], envs[..i])
        invariant actions == Dispatch(messages, byId, items[..i], envs[..i])
      {
        RunStep(messages, byId, items, envs, i);
        var started := RunItem(i, items[i], envs[i]);
        AppendAssoc(start, ItemsLines(messages, byId, items[..i], envs[..i]), ItemLines(messages, byId, items[i], envs[i]));
        actions := actions + started;
      }
      assert items[..|items|] == items && envs[..|envs|] == envs;
      Log(FinishedLine);
      AppendAssoc(log0, BackupLines(timestamp, backupRun), ItemsLines(messages, byId, items, envs));
      AppendAssoc(log0, BackupLines(timestamp, backupRun) + ItemsLines(messages, byId, items, envs), [FinishedLine]);
    }

    /** The backup step: announces it, exports the current user's registry
      hive to a timestamped .reg file and confirms. */
    method BackUpRegistry(timestamp: string, backupRun: CommandResult)
      modifies this`log
      ensures log == old(log) + BackupLines(timestamp, backupRun)
    {
      ghost var log0 := log;
      Log("Starting backup...");
      var backupFile := BackupFileName(timestamp);
      RunPowerShell(backupRun);
      AppendAssoc(log0, ["Starting backup..."], OutputLines(backupRun));
      Log("✅ Backup saved: " + backupFile);
      AppendAssoc(log0, ["Starting backup..."] + OutputLines(backupRun), ["✅ Backup saved: " + backupFile]);
    }

    /** One pass of the run's loop: a ticked entry whose tag is a registered
      identifier runs that tweak and adds the warning when it fails; any other
      ticked entry runs as an external script; an unticked entry is skipped. */
    method RunItem(index: nat, item: CheckItem, env: ItemEnv) returns (started: seq<Action>)
      requires Valid()
      modifies this`log, this`tempFiles, this`tempCounter
      ensures Valid() && tempFiles == old(tempFiles)
      ensures log == old(log) + ItemLines(messages, byId, item, env)
      ensures started == ItemAction(messages, byId, item, env, index)
    {
      started := [];
      if item.checked {
        if item.tag in byId {
          var ok := RunRegistered(item.content, byId[item.tag], env);
          started := [RanTweak(index, item.tag, ok)];
        } else {
          RunScript(item.content, env.script);
          started := [RanScript(index, item.tag)];
        }
      }
    }

    /** A registered tweak's pass: its heading, the tweak's own lines, and the
      warning when it reports failure. */
    method RunRegistered(content: string, tweak: Tweak, env: ItemEnv) returns (ok: bool)
      requires Valid()
      modifies this`log, this`tempFiles, this`tempCounter
      ensures Valid() && tempFiles == old(tempFiles)
      ensures ok == TweakOk(messages, tweak.kind, env)
      ensures log == old(log) + TweakPassLines(messages, content, tweak.kind, env)
    {
      ghost var log0 := log;
      ghost var heading := ["▶ " + content + " ..."];
      Log("▶ " + content + " ...");
      ok := RunTweak(tweak, env);
      AppendAssoc(log0, heading, TweakLines(messages, tweak.kind, env));
      ghost var log1 := log;
      ghost var warning: seq<string> := if ok then [] else [messages.tweakWarning];
      if !ok {
        Log(messages.tweakWarning);
      }
      assert log == log1 + warning;
      AppendAssoc(log0, heading + TweakLines(messages, tweak.kind, env), warning);
    }

    /** An external script's pass: its heading, then RunPowerShell. */
    method RunScript(content: string, script: CommandResult)
      modifies this`log
      ensures log == old(log) + ScriptPassLines(content, script)
    {
      ghost var log0 := log;
      Log("▶ Running " + content + " ...");
      RunPowerShell(script);
      AppendAssoc(log0, ["▶ Running " + content + " ..."], OutputLines(script));
    }
  }
}
