# CleanCommit main window, modelled in Dafny

CleanCommit is a Windows tweak tool. Its main window lists two built-in tweaks
followed by the `.ps1`/`.cmd` files of a `scripts` folder, all ticked. A run
first exports `HKCU` as a backup. It then runs every ticked entry in list
order and writes everything to a log. The two built-in tweaks are:

- **Cloudflare DNS.** A PowerShell script sets Cloudflare's malware-blocking
  resolvers on every active adapter. A second script then reads the adapters
  back as JSON. The tweak succeeds only if the script ran and that read-back
  finds a Cloudflare resolver.
- **Ultimate Performance.** A script creates and activates the Ultimate
  Performance power plan. The tweak succeeds exactly when the script ran.

Each script runs directly when the process is already administrator. Otherwise
it runs through a UAC prompt. Separately, the window compares the latest
GitHub release tag with its own version 0.1.0 to decide whether to show an
"update available" badge. The window's localized messages exist in five
languages, picked by the language selector. The run's progress lines (the
backup announcement and confirmation, the per-entry headings and the closing
line) are logged in English only.

The model has one module per concern:

- `TextUtil`: the .NET string helpers the window relies on (white space,
  `Trim`/`TrimEnd`, `Split`/`Join`, ordinal case-insensitive comparison,
  `StringBuilder.AppendLine`).
- `Localization`: `CurrentLang`, the `Localize` switch and the message tables.
- `Versions`: `ParseVersionFromTag`, `System.Version` ordering and the
  update-badge decision.
- `Commands`: what a PowerShell run returns, and the administrator and UAC
  branches.
- `DnsCheck`: reading the adapter records and the verdict and report of
  `VerifyDnsCloudflareAsync`.
- `Registry`: the built-in tweaks, the id dictionary, the script filter and
  the checkbox entries.
- `Window`: the `MainWindow` class. It holds the log, the entries, the tweak
  registry and the temporary script files. Its methods model the
  constructor, `LoadScripts`, `RunButton_Click`, the two apply routines, the
  DNS verification and the PowerShell runners. Each method is proved against
  a specification function of the log or the result (`DnsApplyLines`,
  `PowerApplyLines`, `Dispatch`, `ItemsLines`, …). Lemmas describe
  `Dispatch` and `CheckedIndices` on their own, `ItemsLines` only by its
  one-entry step (`RunStep`), and `DnsVerification` through the `DnsCheck`
  lemmas. `DnsApplyLines` and `PowerApplyLines` have no lemma of their
  own: `ApplyResultCombination` states only the success flags that go with
  them.

Everything the window gets from the operating system is handed to the model
as a value:

- the result of each captured run;
- whether the process is administrator, together with that branch's result
  (`ExecutionPath`);
- the outcome of the elevated run;
- the parsed JSON document;
- the IPv6 policy value from the registry;
- the file list of the scripts folder;
- the backup timestamp;
- the release tag.

## Model

| member | source | states |
|---|---|---|
| Localization.CurrentLang | MainWindow.xaml.cs:142-143 | The selected item's text, or "English" when nothing is selected |
| Localization.LanguageOf | MainWindow.xaml.cs:735-742 | The switch falls back to English exactly for names other than Polski, Русский, Deutsch and Español |
| Localization.Localize | MainWindow.xaml.cs:732-743 | The result is always one of the five translations |
| Localization.NoSelectionIsEnglish | MainWindow.xaml.cs:142-143 | With nothing selected, every message comes out in English |
| Localization.SelectorNamesPickColumns | MainWindow.xaml.cs:735-742 | Each of the five selector names picks its own column of every message table |
| Versions.CompareTo | MainWindow.xaml.cs:765 | `Version` comparison returns -1, 0 or 1, and 0 exactly for equal versions |
| Versions.NewerIsTripleGreater | MainWindow.xaml.cs:765 | For versions with the same revision, `latest > CurrentVersion` is the lexicographic (major, minor, build) order, and that order is strict and total |
| Versions.KeepVersionChars | MainWindow.xaml.cs:784-786 | The cleaned text is no longer than the tag and holds only ASCII digits and dots |
| Versions.KeepVersionCharsAppend | MainWindow.xaml.cs:784-786 | Cleaning distributes over concatenation |
| Versions.KeepVersionCharsAll | MainWindow.xaml.cs:784-786 | Text made only of digits and dots is kept whole |
| Versions.KeepVersionCharsNone | MainWindow.xaml.cs:784-786 | Text without digits or dots is cleaned to nothing |
| Versions.RemoveEmpty | MainWindow.xaml.cs:791 | `RemoveEmptyEntries` keeps exactly the non-empty pieces of the split: every kept piece is non-empty and from the split, and every non-empty piece is kept |
| Versions.RemoveEmptyAppend | MainWindow.xaml.cs:791 | The filter works piece by piece and keeps the order: the result for two runs of pieces is the result for the first followed by that for the second |
| Versions.RemoveEmptySingle | MainWindow.xaml.cs:791 | A single piece is kept exactly when it is not empty |
| Versions.PadToThree | MainWindow.xaml.cs:792 | After padding there are at least three pieces |
| Versions.ParseComponent | MainWindow.xaml.cs:795 | A component parsed by `Version.TryParse` lies in 0..int.MaxValue |
| Versions.TryParseVersion | MainWindow.xaml.cs:795 | A parsed version has non-negative major and minor |
| Versions.ParseVersionFromTag | MainWindow.xaml.cs:782-796 | The character loop and the padding loop compute exactly `ParseVersion(tag)` |
| Versions.PiecesAreDigits | MainWindow.xaml.cs:786-791 | Every piece left after the split is a non-empty string of digits |
| Versions.BlankKeptIsEmpty | MainWindow.xaml.cs:789 | Cleaned text is blank exactly when it is empty, since digits and dots are not white space |
| Versions.ParseVersionMeaning | MainWindow.xaml.cs:782-796 | The result is null exactly when the tag has no digit and no dot, or one of its first three numeric pieces exceeds int.MaxValue. Otherwise it is major.minor.build from those pieces, with 0 for missing ones and no revision |
| Versions.PaddedPieces | MainWindow.xaml.cs:791-793 | After padding with "0", each of the first three pieces is a non-empty digit string whose value is the piece or 0 when missing |
| Versions.TryParseDigitPieces | MainWindow.xaml.cs:793-795 | Three digit pieces joined by dots parse as their values, with no revision, unless one exceeds int.MaxValue, which gives null |
| Versions.ParseVersionPadsMissing | MainWindow.xaml.cs:792-793 | "v2" parses as 2.0.0 |
| Versions.PiecesOfMajorOnlyTag | MainWindow.xaml.cs:784-791 | "v2" keeps "2" and splits into the one piece "2" |
| Versions.ParseVersionDropsFourth | MainWindow.xaml.cs:793 | "v1.2.3.4" parses as 1.2.3: pieces past the third are dropped |
| Versions.PiecesOfFourPartTag | MainWindow.xaml.cs:784-791 | "v1.2.3.4" splits into the four pieces "1", "2", "3", "4" |
| Versions.KeptOfFourPartTag | MainWindow.xaml.cs:784-786 | "v1.2.3.4" cleans to "1.2.3.4" |
| Versions.SplitOfFourParts | MainWindow.xaml.cs:791 | "1.2.3.4" splits into four pieces |
| Versions.NoEmptyInFourParts | MainWindow.xaml.cs:791 | No piece of "1.2.3.4" is dropped as empty |
| Versions.ParseVersionLoneDot | MainWindow.xaml.cs:788-795 | "." survives the blank test, splits into nothing, is padded and parses as 0.0.0 |
| Versions.ParseVersionNoDigits | MainWindow.xaml.cs:789 | A tag without digits or dots ("latest") gives null |
| Versions.UpdateAvailableIff | MainWindow.xaml.cs:764-774 | An update is flagged if and only if the tag parses and its (major, minor, build) is lexicographically above (0, 1, 0) |
| Versions.BlankKeepsNothing | MainWindow.xaml.cs:789 | A blank tag has no digit or dot to keep |
| Versions.BlankTagIsNoUpdate | MainWindow.xaml.cs:761 | A blank tag would not flag an update anyway, so the early return agrees with the comparison |
| Versions.CheckForUpdates | MainWindow.xaml.cs:747-780 | The badge shows only when an update is flagged. With a usable tag, flag and badge both equal the comparison. Without one, only the badge is hidden and the flag keeps its previous value |
| TextUtil.TrimEnd | MainWindow.xaml.cs:412 | The result is a prefix with no trailing white space, and only white space was removed |
| TextUtil.TrimStart | MainWindow.xaml.cs:297 | The result is a suffix with no leading white space, and only white space was removed |
| TextUtil.TrimOfNonBlank | MainWindow.xaml.cs:297 | Trimming a non-blank string leaves something |
| TextUtil.ToUpperAscii | MainWindow.xaml.cs:188-189 | Upper-casing leaves no lower-case ASCII letter |
| TextUtil.EqualsIgnoreCaseLetterFree | MainWindow.xaml.cs:363-365 | Against text without letters, the ignore-case comparison is plain equality |
| TextUtil.SplitOn | MainWindow.xaml.cs:791 | `Split('.')` gives at least one piece, and no piece contains the separator |
| TextUtil.SplitOnSepFree | MainWindow.xaml.cs:791 | Text without the separator splits into itself alone |
| TextUtil.SplitOnPrefix | MainWindow.xaml.cs:791 | A separator splits off the text before it |
| TextUtil.SplitJoin | MainWindow.xaml.cs:791-793 | Splitting a `string.Join` of separator-free pieces gives the pieces back |
| Commands.ElevationLines | MainWindow.xaml.cs:532-546 | The elevated runner logs at most one line, and nothing when it succeeds |
| Commands.DenialDistinctFromFailure | MainWindow.xaml.cs:532-546 | A Win32Exception, which is logged as the UAC denial whatever its cause, and any other exception both fail. Their log lines differ unless the other exception's message is the denial text itself |
| Commands.WarningLines | MainWindow.xaml.cs:297 | The stderr warning is logged exactly when stderr is not blank |
| Commands.OutputLines | MainWindow.xaml.cs:583-584 | `RunPowerShell` logs at most two lines, and nothing exactly when both output and error are blank |
| DnsCheck.ReadStrings | MainWindow.xaml.cs:353-358 | A server list reads if and only if every item is a string or null. The result then has one entry per item, in order: the item's text, or "" for null |
| DnsCheck.EvaluateDnsDocument | MainWindow.xaml.cs:341-412 | The scan, the policy caveat and the trimmed report return exactly the pair `DnsVerification` defines |
| DnsCheck.ScanAdapters | MainWindow.xaml.cs:345-381 | The try block succeeds exactly when the document parses and every element of an array root reads. Its two flags and its adapter lines are then those of the adapters read |
| DnsCheck.ReadAdaptersShape | MainWindow.xaml.cs:350-371 | Reading fails if and only if some element is unreadable. A successful read gives one adapter per element, in order |
| DnsCheck.ReadAdaptersPrefix | MainWindow.xaml.cs:350-382 | An unreadable element among the first `j` ends the whole walk with the parse failure |
| DnsCheck.ReadAdaptersFailure | MainWindow.xaml.cs:350-382 | Reading fails if and only if some element is unreadable. A successful read gives one adapter per element, in order |
| DnsCheck.DnsVerdict | MainWindow.xaml.cs:345-412 | The verdict is true if and only if the document is an array, every element reads as an adapter, and some adapter lists a Cloudflare IPv4 or IPv6 resolver |
| DnsCheck.VerdictIgnoresLanguageAndPolicy | MainWindow.xaml.cs:384-412 | Neither the language nor the IPv6 policy value changes the verdict |
| DnsCheck.ParseFailureReport | MainWindow.xaml.cs:374-382 | A malformed document or an unreadable element gives false and the parse-failure message alone |
| DnsCheck.AdapterLinesShape | MainWindow.xaml.cs:369-370 | Each adapter gives exactly two report lines, in input order: its name with its IPv4 list, then its IPv6 list |
| DnsCheck.NoAdaptersReport | MainWindow.xaml.cs:336-348 | Blank output, an empty array or a non-array root gives false and a report with only the header and possibly the policy note |
| DnsCheck.PolicyNotePlacement | MainWindow.xaml.cs:384-403 | The IPv6 policy note is added after every adapter line. It appears exactly when no adapter lists an IPv6 resolver and `DisabledComponents` is a non-zero DWORD |
| DnsCheck.Ipv6MatchIsExact | MainWindow.xaml.cs:363-365 | The case-insensitive IPv6 match is exact-text membership of either Cloudflare address |
| DnsCheck.ReadAdapterDefaults | MainWindow.xaml.cs:352-358 | An element reads if and only if its name is missing, a string or null, and its array-valued server lists hold only strings or nulls. A missing or null name reads as "", and a missing or non-array list as empty |
| DnsCheck.ObjectRootIsNoAdapters | MainWindow.xaml.cs:348 | A single-object root reads as no adapters and fails, even when the same object inside an array would pass |
| DnsCheck.Ipv4AlonePasses | MainWindow.xaml.cs:362-367 | Cloudflare IPv4 resolvers without any IPv6 resolver pass |
| DnsCheck.Ipv6AlonePasses | MainWindow.xaml.cs:362-367 | A Cloudflare IPv6 resolver passes beside a non-Cloudflare IPv4 one |
| Registry.IndexById | MainWindow.xaml.cs:65 | The registration loop builds exactly `IdIndex(tweaks)` |
| Registry.IdIndexKeys | MainWindow.xaml.cs:65 | The dictionary's keys are exactly the registered identifiers |
| Registry.IdIndexValues | MainWindow.xaml.cs:65 | Each key maps to a registered tweak carrying that identifier |
| Registry.IdIndexLastWins | MainWindow.xaml.cs:65 | A duplicate identifier maps to the last tweak registered with it |
| Registry.BuiltinRegistry | MainWindow.xaml.cs:49-65 | The two built-in identifiers are non-empty and distinct, and the dictionary holds exactly the two tweaks |
| Registry.ScriptFilterExamples | MainWindow.xaml.cs:187-189 | The filter ignores case and looks only at the ending: ".PS1" and ".Cmd" pass, "notes.ps1.txt" and "cmd" do not |
| Registry.FileName | MainWindow.xaml.cs:193 | The file name is the path's suffix after the last separator and contains no separator |
| Registry.BuiltinItems | MainWindow.xaml.cs:176-184 | One entry per built-in tweak |
| Registry.ScriptItemsSpec | MainWindow.xaml.cs:187-197 | Every script entry is ticked, tagged with a listed file that passes the filter, and shows that file's name. Every file that passes has its entry. There are none exactly when no file passes |
| Registry.ScriptItemsSound | MainWindow.xaml.cs:187-197 | Every script entry is ticked, tagged with a listed file that passes the filter, and shows that file's name |
| Registry.ScriptItemsHas | MainWindow.xaml.cs:187-197 | The file at any position that passes the filter has its ticked entry, showing its file name |
| Registry.ScriptItemsComplete | MainWindow.xaml.cs:187-197 | Every listed file that passes the filter has its entry |
| Registry.ScriptItemsAppend | MainWindow.xaml.cs:187-197 | The entries follow the folder's order: the entries for two runs of files are those of the first followed by those of the second |
| Registry.ScriptItemsSingle | MainWindow.xaml.cs:187-197 | One file gives its ticked entry, tagged with the path and showing `Path.GetFileName`, exactly when it passes the filter, and nothing otherwise |
| Registry.OnlyBuiltinsHint | MainWindow.xaml.cs:200 | The list holds only the built-in entries if and only if no file of the folder is a script |
| Window.ApplyResultCombination | MainWindow.xaml.cs:314-317 | DNS success implies the script ran, and failed verification fails the tweak whatever the exit code (`executed && ok`). The power plan's result is `executed`, independent of the active-scheme query |
| Window.CheckedIndicesSpec | MainWindow.xaml.cs:225-227 | The visited positions are exactly the ticked entries, strictly increasing |
| Window.DispatchFollowsList | MainWindow.xaml.cs:225-247 | One routine starts per ticked entry, in list order, whatever earlier routines returned. A tag registered in the dictionary runs its tweak and records that tweak's result; any other tag runs as an external script |
| Window.NothingSelectedRunsNothing | MainWindow.xaml.cs:206-218 | With nothing ticked, no entry is visited |
| Window.RunStep | MainWindow.xaml.cs:225-247 | One more entry extends the log and the started routines by that entry's own |
| Window.BuiltinItemsStep | MainWindow.xaml.cs:176-184 | One more tweak extends the built-in entries by its ticked, labelled entry |
| Window.MainWindow.constructor | MainWindow.xaml.cs:44-69 | Registers the two tweaks and lists their entries followed by the script entries. It logs the "no scripts" hint exactly when no script file exists, and no temporary file exists |
| Window.MainWindow.RegisterBuiltins | MainWindow.xaml.cs:49-65 | Adds the two built-in tweaks in order and indexes them by identifier |
| Window.MainWindow.Log | MainWindow.xaml.cs:610-615 | Appends one line to the log |
| Window.MainWindow.LoadScripts | MainWindow.xaml.cs:166-202 | The entries become the built-in entries followed by the script entries. The hint is logged exactly when the list holds only built-ins and the caller asked for it |
| Window.BuiltinEntries | MainWindow.xaml.cs:176-184 | The loop over the built-in tweaks gives exactly `BuiltinItems`: one ticked, labelled entry per tweak, in order |
| Window.ScriptEntries | MainWindow.xaml.cs:187-197 | The loop over the folder's files gives exactly `ScriptItems`: one ticked entry per passing file, in folder order |
| Window.MainWindow.WriteTempScript | MainWindow.xaml.cs:553-558 | Creates one new temporary file |
| Window.MainWindow.TryDelete | MainWindow.xaml.cs:560-563 | Removes the given temporary file and nothing else |
| Window.MainWindow.RunTempScript | MainWindow.xaml.cs:294-297 | Runs a script from a temporary file that is deleted again, and logs the stderr warning |
| Window.MainWindow.RunPowerShell | MainWindow.xaml.cs:566-585 | Logs the trimmed output unless blank, then the stderr warning |
| Window.MainWindow.LogWarning | MainWindow.xaml.cs:584 | A non-blank standard error adds one line, "⚠ " and the trimmed text; a blank one adds nothing |
| Window.MainWindow.RunPowerShellElevated | MainWindow.xaml.cs:513-551 | True exactly for a started elevated run that exited with 0. Logs the UAC denial or the exception message. The temporary file is always deleted |
| Window.MainWindow.RunTweakScript | MainWindow.xaml.cs:291-302 | The `executed` flag is exit code 0 as administrator and the elevated result otherwise, with each branch's log lines |
| Window.MainWindow.VerifyDnsCloudflare | MainWindow.xaml.cs:320-413 | Logs the query's stderr warning and reads blank output as an empty array. Returns the verdict and report of `DnsVerification` |
| Window.MainWindow.ApplyDnsCloudflare | MainWindow.xaml.cs:254-318 | Logs the intent, the branch's lines, the rights warning after a failed elevated run, then the verification's warning and report. Returns `executed && ok` |
| Window.MainWindow.ApplyUltimatePerformance | MainWindow.xaml.cs:417-478 | Logs the intent, the branch's lines, the active-scheme warning and output, and a failure line when the script did not run. Returns `executed` |
| Window.MainWindow.LogActiveScheme | MainWindow.xaml.cs:463-465 | Logs the active-scheme query's stderr warning, then its trimmed output unless blank |
| Window.MainWindow.RunTweak | MainWindow.xaml.cs:229-232 | Runs the routine of the tweak's kind, with that routine's log and result |
| Window.MainWindow.RunButtonClick | MainWindow.xaml.cs:204-250 | With nothing ticked: only the "select at least one" notice, nothing started and the log unchanged. Otherwise: the backup lines, each ticked entry's lines in order, the closing line, and the routines given by `Dispatch` |
| Window.MainWindow.BackUpRegistry | MainWindow.xaml.cs:220-223 | Logs the announcement, the export's output and the backup file name |
| Window.MainWindow.RunItem | MainWindow.xaml.cs:227-245 | Skips an unticked entry. A registered tag runs its tweak; any other tag runs as an external script |
| Window.MainWindow.RunRegistered | MainWindow.xaml.cs:229-240 | Logs the heading, the tweak's lines, and the warning when the tweak fails. Returns the tweak's result |
| Window.MainWindow.RunScript | MainWindow.xaml.cs:243-245 | Logs the heading, then the script's output and warning |

## Left out

- The window's widgets, themes, message boxes, the upload button, the language
  and theme selectors' event handlers and the re-labelling on a language
  change: they present state but do not decide it.
- Process creation and capture (`RunPowerShellCapture`, `Process.Start`): each
  run's exit code, output and error are input values. So is the elevated
  run's outcome (`ElevationOutcome`), including whether `Process.Start`
  threw a Win32Exception (a declined UAC prompt among other causes).
- Window.MainWindow.RunButtonClick: exceptions that end the run are not
  modelled. Some foreign calls are outside any `try`: `WriteTempPs1` (also
  where `RunPowerShellElevated` calls it, before its `try`), `Process.Start`
  in `RunPowerShellCapture` and `Process.Start` in `RunPowerShell`. When one
  of these throws in an apply routine or in `RunButton_Click`, the exception
  leaves the `async void` handler. The remaining ticked entries then never
  run and the closing line is never logged. In the model every run returns a
  `CommandResult` and every temporary file is written. So the run always
  reaches every ticked entry and the closing line, and "whatever earlier
  routines returned" covers returned results, not thrown exceptions.
- `IsAdministrator`: its answer is the branch an `ExecutionPath` value takes.
- The PowerShell script bodies and what they do to the system (netsh,
  powercfg, `reg export`): only their results are modelled.
- JSON text parsing (`JsonDocument.Parse`): the parser's outcome is an input,
  either a document tree or "malformed". What happens to the tree afterwards
  is modelled.
- `Registry.GetValue` of `DisabledComponents`: its result is a `PolicyValue`
  input. A read that throws is the same as a non-DWORD value, because both end
  without the note.
- The GitHub request in `CheckForUpdatesAsync` (HttpClient, status code,
  streaming): the model starts from the release's `tag_name`, or none.
- `DateTime.Now` and `Guid.NewGuid`: the backup timestamp is a string
  parameter. Temporary files are numbered by a counter instead of named by a
  GUID.
- Window.MainWindow.TryDelete: always succeeds. The swallowed I/O errors of
  the source are not modelled.
- Window.MainWindow.constructor: it takes the messages of the selected
  language, which are `Localization.MessagesIn(LanguageOf(CurrentLang(selection)))`,
  instead of calling `Localize` on every message. No modelled operation
  changes the selection, so the lookup is the same each time.
- Localization.MessagesIn and the message tables are plain data with no
  property beyond `Localize`'s.
- Versions.KeepVersionChars: `char.IsDigit` accepts every Unicode decimal
  digit. The model keeps ASCII digits only.
- TextUtil.ToUpperAscii: `OrdinalIgnoreCase` folds case across Unicode. The
  model folds ASCII only. This covers the script filter's endings and the
  letter-free Cloudflare addresses.
- Registry.FileName: treats `\` and `/` as separators. Drive-letter colons and
  other platform rules of `Path.GetFileName` are not modelled.
- The `RequiresAdmin` flag is kept in the data but never read, as in the
  source.
- Window.MainWindow.Log: the log is the sequence of messages. The
  `HH:mm:ss` timestamp prefixed to each line, the text box and the scrolling
  are not modelled.
- The `scripts` folder's creation and its enumeration order: the file list is
  an input, in the order it is given.
