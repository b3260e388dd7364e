# Slimference: a model and its proofs

Slimference sits between coding agents and their providers. It shortens what they
send, keeps what it removes recoverable, routes Codex through itself, and reports
what it saved. This project models the parts of it whose correctness is hard to see
in one function, and proves what they keep over every input, every run or every
interleaving. `dafny verify dfyconfig.toml` checks all of it.

| part | files | what is proved |
|---|---|---|
| savings ledger | `Medians`, `MapSums`, `Savings*` | the log is folded into totals, session rows and route rows that agree field by field, through charging, re-keying and merging in any map order; the session rows are identified one for one; pooled billing is never dearer |
| chunk references | `ChunkReference` | decoding undoes encoding in one pass |
| shell quoting | `ShellQuote` | a POSIX shell reads back the arguments |
| transparent mode | `TextLines`, `Transparent*`, `HostsReload`, `SwitchRoundTrip` | the surgical edit is idempotent, framed and read back; the hosts patch, the armed flag, the cleanup and the engine stay consistent over all reloads |
| environments | `EnvLists`, `EnvCommand`, `CodexCommand` | overriding is map override; insertion into an `env` command only appends |
| desktop launch | `GoQuote`, `DesktopLaunch`, `DesktopShim` | the configuration survives the chain from launcher to environment to arguments to provider |
| app-server mediator | `JsonLines`, `AppServerRewrites`, `StreamImage`, `Mediator`, `MediatorRuns` | two interleaved goroutines write the line-by-line images of their inputs |
| command output first | `ContentArchive`, `OutputFirst`, `Refetch*` | output is untouched or shorter and recoverable; capped counting is compared with uncapped counting, and the counter file is whole exactly if saves do not overlap |
| recertification | `RecertLock`, `RecertProof`, `RecertLog` | mutual exclusion, proof gates over restartable counters, a bounded log |

Code that works step by step is modelled by methods with loops and by classes, each
proved against a function of its input or of the state before; the theorems are
lemmas about those functions. Protocols are step functions, and a run is any
sequence of steps. `Strs` and `Basics` hold what the parts share.

## Where the code falls short of its description

Each of these has a lemma with the failing input and one with the exact condition.

- The comments of the adaptive budget say that the cap and lost updates only make it
  more conservative. The cap counts re-fetches as applies and can lift a class over the
  sample floor (`RefetchExamples.OverSuppresses`,
  `RefetchDecision.NeverOverSuppressesIff`); when two invocations overlap, the update that
  is lost can be an apply, which raises the measured rate
  (`RefetchDecision.OverlapOverSuppresses`,
  `RefetchDecision.OverlapNeverOverSuppressesIff`).
- They also say that the file of these counters is never torn. Both saves use the same
  temporary file, so overlapping ones can publish an empty or a mixed file
  (`RefetchFile.TornFile`, `RefetchFile.MixedFile`, `RefetchFile.WholeIff`).
- Two sessions that resolve to one local thread share one facts entry, and the Codex
  requests of one are lost from the report (`SavingsFallback.SharedThreadLosesRequests`);
  the exact condition is in the contracts of `SavingsFallback.ResolveFallbackSessions`
  and, for the whole report, `SavingsReport.Report`.
- A `thread/start` request with `"params": null`, or a response with
  `"config": null`, is read as a nil map, and writing to it panics
  (`MediatorRuns.CrashingLines`, `MediatorRuns.NeverCrashesIff`).
- The recertification lock is exclusive only if nothing happens between the stale test
  and the removal and no live process keeps it for thirty minutes
  (`RecertLock.AgedTakeOver`, `RecertLock.SlowRemoval`, `RecertLock.ExclusiveIff`).
- A restart between the two readings can hide failures from the gates that want a zero
  (`RecertProof.RestartHidesFailure`, `RecertProof.ZeroDeltaIff`); what a gate wants
  above zero is sound (`RecertProof.PhaseFMeansMutation`).
- An original whose compressed file exceeds the archive's byte limit is evicted by the
  put that stored it, so its marker leads nowhere (`ContentArchive.OversizedIsLost`,
  `ContentArchive.StoredExpandsIff`).
- A reload that switches transparent mode off while the reversal fails leaves the hosts
  file patched and the daemon unarmed (`HostsReload.FailedReversal`,
  `HostsReload.ArmedIffPatched`, `HostsReload.ArmedIffPatchedAtEnd`).
- The reader of the switch takes the first assignment in the whole file, whatever its
  table, as its comment admits (`TransparentPatch.OtherTableWins`,
  `TransparentReload.ReadsBackIff`).
- A base URL with certain control characters, or with non-printable ones beyond U+FFFF,
  does not survive `strconv.Quote` followed by JSON (`DesktopShim.BellIsLost`,
  `DesktopShim.TagIsLost`, `DesktopShim.UrlReadsIff`). The shim's own check of the URL
  refuses all of these, so what it starts is always read back
  (`DesktopShim.LaunchRoundTrip`).

## Model

| member | source | states |
|---|---|---|
| Medians.MedianPositive | cmd/slimference/savings_cmd.go:647-663 | the loop computes the median of the positive values, 0 without any, the mean of the two middle ones rounded down for an even count |
| Medians.MedianIs | cmd/slimference/savings_cmd.go:647-663 | of the positive values in order it is the middle one, or the mean of the two middle ones rounded down |
| Medians.PositivesCount | cmd/slimference/savings_cmd.go:648-653 | the values that count are the positive ones, each as often as it occurs |
| Medians.MedianPermutation | cmd/slimference/savings_cmd.go:647-663 | lists with the same elements have the same median |
| Medians.MedianBalances | cmd/slimference/savings_cmd.go:647-663 | at most half of the positive values lie strictly below the median and at most half strictly above |
| Medians.MedianBetween | cmd/slimference/savings_cmd.go:647-663 | the median lies between two positive values of the list |
| SavingsSums.MergeBucketCounts | cmd/slimference/savings_cmd.go:957-975 | merging bucket counts adds every bucket, in whatever order the map is ranged, if the buckets are named and positive as the accumulator leaves them |
| SavingsSums.MergeCountMap | cmd/slimference/savings_cmd.go:771-783 | merging counts adds every class |
| SavingsSums.MergeEvidence | cmd/slimference/savings_cmd.go:728-769 | merging evidence adds every counter and class; an absent side counts as zero |
| SavingsSums.MergeSums | cmd/slimference/savings_cmd.go:1265-1305 | merging two rows adds every additive field, footprint bucket and evidence counter |
| SavingsRecords.SessionIDMeans | cmd/slimference/savings_cmd.go:1474-1483 | a record is filed under its trimmed session id, or else under its source, or as unknown |
| Strs.TrimMeans | cmd/slimference/savings_cmd.go:1474-1483 | what trimming takes away: white space on either side, and all of it |
| Strs.ContainsMeans | cmd/slimference/savings_cmd.go:1557-1571 | a word is contained exactly if it stands somewhere in the text |
| Strs.CodePoints | cmd/slimference/savings_cmd.go:1474-1508 | the white space that is trimmed, and the capitals that are lowered |
| SavingsRecords.ClientFamilyMeans | cmd/slimference/savings_cmd.go:1557-1571 | the client family is the one given, or is read off the words of the source |
| SavingsRecords.RouteModeMeans | cmd/slimference/savings_cmd.go:1485-1508 | the route mode is the one given, or is read off the start of the session id, or off the source |
| SavingsRecords.AttributedMeans | cmd/slimference/savings_cmd.go:1652-1666 | an id is attributed exactly when it starts with one of three families and a colon or an underscore |
| SavingsRecords.CandidateMeans | cmd/slimference/savings_cmd.go:1510-1529 | a record is a candidate exactly when provider, client, source or an id says Codex and its path is blank or a response path |
| SavingsRecords.EventReads | cmd/slimference/savings_cmd.go:619-627 | what the charging of negative events reads off a record |
| SavingsRecords.BaseReads | cmd/slimference/savings_cmd.go:389-435 | each field that a record counts by itself, from its own entries: reads are those of both caches, a hit is any read |
| SavingsRecords.DeltaMeans | cmd/slimference/savings_cmd.go:1029-1034 | a layer is credited with the positive part of what it took off, if both counts are known |
| SavingsRecords.FallbackMeans | cmd/slimference/savings_cmd.go:1008-1053 | the second layer falls back to reads less creates, or to its difference if that is zero; the others to theirs |
| SavingsRecords.MechanismLayerMeans | cmd/slimference/savings_cmd.go:977-993 | which layer a mechanism counts for, by its trimmed name and source and its number |
| SavingsRecords.CountedMeans | cmd/slimference/savings_cmd.go:436-487 | which mechanisms count: named ones but the total, with any token count |
| SavingsRecords.EstimateMeans | cmd/slimference/savings_cmd.go:814-832 | the compounded estimate is the saved tokens in each remaining request at the ratio, rounded down, for mechanisms with a footprint |
| SavingsRecords.PriceOf | cmd/slimference/savings_cmd.go:819-824 | the factor that a ratio stands for |
| SavingsRecords.MechanismReads | cmd/slimference/savings_cmd.go:785-832 | what the accumulator reads off a mechanism |
| SavingsRecords.TallyReads | cmd/slimference/savings_cmd.go:665-716 | what one evidence decision adds to each tally |
| SavingsRecords.AddMechanisms | cmd/slimference/savings_cmd.go:436-487 | the loop over the mechanisms of a record adds their sums to every field and reports which layers were seen |
| SavingsRecords.AddEvidence | cmd/slimference/savings_cmd.go:665-726 | the loop over the evidence decisions adds their tallies and classes to every counter |
| SavingsRecords.AddLayerFallback | cmd/slimference/savings_cmd.go:1008-1053 | a layer that no mechanism names gets the fallback difference of token counts, the others nothing |
| SavingsRecords.AddRecord | cmd/slimference/savings_cmd.go:388-487 | one record adds exactly what it contributes to every field of its session row |
| SavingsNegative.RetryIsFirstFollower | cmd/slimference/savings_cmd.go:629-645 | the retry found is the first later record that can follow the error, provided it comes inside the 120 seconds |
| SavingsNegative.NextRetry | cmd/slimference/savings_cmd.go:629-645 | the search loop finds that retry |
| SavingsNegative.PriorDeltaMeans | cmd/slimference/savings_cmd.go:623-627 | which records count as earlier deltas |
| SavingsNegative.NegativeEventsForSession | cmd/slimference/savings_cmd.go:595-617 | the accounting loop counts the charged errors and sums the charges, where the charge of an error is the positive part of its retry less the median of the positive continuing records before it |
| SavingsNegative.ChargesCoverEvents | cmd/slimference/savings_cmd.go:595-617 | charged tokens are at least the charged events, and zero together with them |
| SavingsLedger.FilterWindow | cmd/slimference/savings_cmd.go:374-383 | the records kept are those inside the window |
| SavingsLedger.DirectShareIsRecordAmount | cmd/slimference/savings_cmd.go:389-435 | what a record adds to the grand totals directly is what it adds to its session row |
| SavingsLedger.RemainingMeans | cmd/slimference/savings_cmd.go:933-941 | how many requests of a session are taken to come |
| SavingsLedger.Ledger.Accumulate | cmd/slimference/savings_cmd.go:388-487 | after the log loop each session row sums its own records field by field, the rows together sum all records, the grand totals sum their direct shares, the fact rows count the candidate requests, and the map of records holds under each session its records in order |
| SavingsLedger.Ledger.ApplyNegativeEvents | cmd/slimference/savings_cmd.go:573-593 | each row is charged for the records of its session, in whatever order the map is ranged, the totals stay ahead of the rows by the same amounts, and no field but the penalised ones moves |
| SavingsMoves.MoveConserves | cmd/slimference/savings_cmd.go:1134-1141 | re-keying one session conserves every amount that the merge adds up |
| SavingsMoves.MoveFacts | cmd/slimference/savings_cmd.go:1127-1147 | after one move the facts table holds, at each target of a moved session, all requests of one session that moved there, attributed; every other entry as it was but for its reason; and the count of requests is kept exactly when the targets are fresh |
| SavingsFallback.PlanIsSound | cmd/slimference/savings_cmd.go:1116-1129 | which sessions move and where is settled before the loop: no target is itself a session that moves |
| SavingsFallback.NeedsMeans | cmd/slimference/savings_cmd.go:1168-1178 | which sessions need a thread |
| SavingsFallback.ThreadReads | cmd/slimference/savings_cmd.go:1130-1147 | what a moved session takes over from its thread, and the name it is filed under |
| SavingsFallback.ResolveFallbackSessions | cmd/slimference/savings_cmd.go:1105-1149 | whatever the order of the range, and whether or not inserted entries are visited, the loop ends with the rows of the plan: each row sums the rows that landed in it, every field keeps its sum over all sessions, and at any price ratio the sessions together are billed no more than before; the count of Codex requests in the facts never grows, and is conserved exactly when the moved sessions have distinct targets without Codex requests of their own |
| SavingsFallback.SharedThreadLosesRequests | cmd/slimference/savings_cmd.go:1147 | two sessions that resolve to one thread lose the requests of one of them |
| SavingsBilling.DiscountPrice | cmd/slimference/savings_cmd.go:2327-2338 | what the discount leaves of a cache read is its price at the ratio, rounded up; a ratio outside [0,1] counts as the nearer end |
| SavingsBilling.EffectivePrice | cmd/slimference/savings_cmd.go:1322-1336 | a row is billed its uncached input in full, its cached input at the ratio rounded up, creates and penalties in full, and never less than zero |
| SavingsBilling.CounterfactualPrice | cmd/slimference/savings_cmd.go:1338-1353 | the counterfactual bills the input without local savings in the same way, without penalties |
| SavingsBilling.RatesMean | cmd/slimference/savings_cmd.go:1338-1353 | each rate times its base is what it is a rate of, and is zero without a base |
| SavingsBilling.DiscountGrows | cmd/slimference/savings_cmd.go:2327-2338 | the floored discount grows with the tokens, and never faster than they do |
| SavingsBilling.BillMonotone | cmd/slimference/savings_cmd.go:1455-1465 | input less the discount of what was read of it grows with the input, for every ratio |
| SavingsBilling.PoolingNeverBillsMore | cmd/slimference/savings_cmd.go:1322-1336 | a pooled row is billed at most what its two parts are billed, even if only one has provider-reported input |
| SavingsBilling.SumCoversPool | cmd/slimference/savings_cmd.go:1322-1336 | for any list of rows, their bills together are never below the bill of all of them pooled |
| SavingsBilling.ScorecardBounds | cmd/slimference/savings_cmd.go:1338-1353 | effective is between zero and counterfactual plus penalty, counterfactual at most uncached plus creates, and without penalty the combined rate is in [0,1] |
| SavingsBilling.CachingPaysIff | cmd/slimference/savings_cmd.go:1338-1353 | the uncached rate is at least the local rate exactly when creates and penalties do not exceed the cached tokens less their price |
| SavingsRows.MergeSession | cmd/slimference/savings_cmd.go:1265-1305 | merging session rows adds every field and keeps the identity of the destination |
| SavingsRows.MergedRow | cmd/slimference/savings_cmd.go:1265-1305 | a merged row nets out if both parts do, and is billed at most what they are |
| SavingsRoutes.BuildRoutes | cmd/slimference/savings_cmd.go:1365-1441 | each route row sums the sessions of its key, is labelled with it, and the routes together sum all sessions, for every field and for the scorecard amounts |
| SavingsRoutes.RouteKeyMeans | cmd/slimference/savings_cmd.go:1443-1453 | a session is filed under its trimmed family and mode, or their stand-ins |
| SavingsRoutes.CardReads | cmd/slimference/savings_cmd.go:509-534 | the scorecard of a session, priced from what its row sums |
| SavingsReport.FinishSessions | cmd/slimference/savings_cmd.go:509-534 | the sessions reported are, one for one, the rows of the table, each with its scorecard, in whatever order the map is ranged; and the totals sum them |
| SavingsReport.ReportedTotalCoversPool | cmd/slimference/savings_cmd.go:509-534 | the effective tokens of the report, summed over its sessions, are never below the bill of its own grand totals |
| SavingsReport.ChargedTables | cmd/slimference/savings_cmd.go:388-507 | the log folded into rows and totals with the penalties applied: there is a row for each session logged, every field of it is what the records of the session contribute plus what they are charged, and so are the sums over the rows |
| SavingsAttribution.CountCodex | cmd/slimference/savings_cmd.go:490-498 | the loop sums requests and attributed requests over the facts, in whatever order they are ranged, caps the latter, and sums the missing ones by reason |
| SavingsAttribution.ReasonMeans | cmd/slimference/savings_cmd.go:557-569 | a blank reason counts as a missing thread identity |
| SavingsAttribution.ReasonsAccount | cmd/slimference/savings_cmd.go:495-498 | if no session has more attributed requests than requests, as the log leaves them, the cap never applies and the reasons account for exactly the unattributed requests |
| SavingsReport.Report | cmd/slimference/savings_cmd.go:356-555 | the session rows reported are, one for one, those logged and charged, with the sessions that need a thread moved to theirs; grand totals, sum of session rows and sum of route rows agree on every shared field; every grand total is what the records in the window contribute plus what their sessions are charged for negative events; requests count those records; net saved is local saved less penalties and cache net is read less create in every row, route and total; the effective total covers the bill of the grand totals if no record counts negative input or reads; the Codex requests reported are at most the candidates among the records, all of them exactly if no two moved sessions share a thread or land on requests, and each is attributed or has a reason |
| SavingsReport.ConditionsMean | cmd/slimference/savings_cmd.go:389-435 | what netting out and having no negative counts say, entry by entry |
| ChunkReference.FormatIs | internal/chunkdedup/reference.go:9-19 | the letter of the format; a size below zero is written as zero |
| ChunkReference.CharCodes | internal/chunkdedup/reference.go:9-12 | the characters of an id and of a size |
| ChunkReference.MatchText | internal/chunkdedup/reference.go:9-19 | a formatted reference is matched as itself, whatever follows it |
| ChunkReference.MatchedText | internal/chunkdedup/reference.go:9-12 | every match is the text of a well-formed reference |
| ChunkReference.ParsePrint | internal/chunkdedup/reference.go:9-45 | scanning a text of literal stretches and references finds exactly those references |
| ChunkReference.PrintParse | internal/chunkdedup/reference.go:9-45 | every text is the print of what the leftmost scan finds in it |
| ChunkReference.DecodeReferences | internal/chunkdedup/reference.go:24-45 | one pass replaces each reference by its chunk, or keeps it byte for byte if the chunk is unknown or has another size; changed says whether any was replaced; without an expander nothing happens; a size beyond int64 is not compared |
| ChunkReference.KnownChunk | internal/chunkdedup/reference.go:33-43 | a reference whose chunk is known is replaced exactly when the chunk has the size it states, or that size does not fit 64 bits; otherwise it stays |
| ChunkReference.UnknownChunk | internal/chunkdedup/reference.go:33-43 | a reference whose chunk is unknown stays |
| ChunkReference.NoChunk | internal/chunkdedup/reference.go:24-45 | a text without a reference stays |
| ChunkReference.DecodeUndoesEncode | internal/chunkdedup/reference.go:14-45 | decoding undoes encoding for every text whose literal stretches hold no reference, whatever the chunks hold |
| ShellQuote.ReadQuoted | cmd/slimference/proxy_cmd.go:615-628 | a quoted argument is read by the POSIX.1-2017 shell (sections 2.2 and 2.3 of the Shell Command Language) as that argument |
| ShellQuote.QuoteIs | cmd/slimference/proxy_cmd.go:615-628 | an argument of safe characters is printed as it is, any other between single quotes, the empty one as two quotes |
| ShellQuote.EscapeQuote | cmd/slimference/proxy_cmd.go:628 | between single quotes, each single quote closes, stands in double quotes and opens again |
| ShellQuote.EscapePlain | cmd/slimference/proxy_cmd.go:628 | everything else stands as it is |
| ShellQuote.UnquotedRules | cmd/slimference/proxy_cmd.go:615-628 | how the POSIX shell reads blanks and backslashes outside quotes (section 2.2.1 of the Shell Command Language) |
| ShellQuote.EndingRules | cmd/slimference/proxy_cmd.go:615-628 | which characters the reader refuses, and where a comment starts (section 2.3) |
| ShellQuote.DoubleRules | cmd/slimference/proxy_cmd.go:615-628 | how it reads inside double quotes (section 2.2.3) |
| ShellQuote.SafeCodes | cmd/slimference/proxy_cmd.go:619-625 | the safe characters |
| ShellQuote.ShellJoin | cmd/slimference/proxy_cmd.go:607-613 | the loop joins the quoted arguments, and the shell reads the result back as the arguments |
| ShellQuote.JoinReadsBack | cmd/slimference/proxy_cmd.go:607-628 | for every list of arguments, empty ones and quotes included, the words read back are the arguments |
| ShellQuote.JoinInjective | cmd/slimference/proxy_cmd.go:607-628 | no two argument lists print alike |
| TransparentToml.LastWriteWins | cmd/slimference/install_helpers.go:66-107 | editing twice leaves what editing once with the second value leaves; with equal values the edit is idempotent |
| TransparentToml.RewriteKeeps | cmd/slimference/install_helpers.go:90-97 | rewriting a key line keeps everything up to the value |
| TransparentToml.AssignsMeans | cmd/slimference/install_helpers.go:90-93 | a line assigns the key exactly when it is white space, the key, white space, an equals sign and white space before the value |
| TransparentToml.HeadersMean | cmd/slimference/install_helpers.go:69-88 | which lines are the table and which end it |
| TransparentToml.BlankAndBareCodes | cmd/slimference/install_helpers.go:90 | the characters of white space and of a bare key |
| TransparentTables.EditSets | cmd/slimference/install_helpers.go:66-107 | read table by table, the first value of the key in [transparent] becomes the written one, or it is added in front, and every other setting of every table is as before |
| TransparentPatch.EditFrames | cmd/slimference/install_helpers.go:66-107 | without the written line the file is line for line what it was, up to a rewritten line, or to an ended last line and an added header |
| TransparentPatch.EditedIs | cmd/slimference/install_helpers.go:66-107 | what is written, to the letter |
| TransparentPatch.PlanIs | cmd/slimference/install_helpers.go:69-97 | where: the first table header, then the first assignment in front of the next header, or else right behind the table header |
| TransparentPatch.AppendIs | cmd/slimference/install_helpers.go:69-84 | without the table it is appended |
| TransparentPatch.UpsertTransparentKey | cmd/slimference/install_helpers.go:66-107 | the three search loops and the rebuilding of the text make this edit |
| TransparentPatch.PatchSNIPeekMode | cmd/slimference/install_helpers.go:33-59 | the file is written only if it changes, a missing one becomes the two-line stub, which reads back, and each error is returned exactly when its step is the first to fail |
| TransparentReload.ReadsBack | cmd/slimference/hosts_lifecycle.go:142-150 | on the edited file the reader returns the first match above the edited line, or else the written value |
| TransparentReload.ReadsBackIff | cmd/slimference/hosts_lifecycle.go:142-150 | it returns the written value exactly when nothing above reads as the other one |
| TransparentPatch.OtherTableWins | cmd/slimference/hosts_lifecycle.go:142-150 | a file on which the edit switches the mode off in [transparent] and the reader still finds it on in the table above |
| TransparentReload.ReadsBackAlone | cmd/slimference/hosts_lifecycle.go:142-150 | if no line above starts with the key, the written value is read |
| TransparentRead.MatchMeans | cmd/slimference/hosts_lifecycle.go:142-150 | what the pattern of the reader matches: at a line start the key, an equals sign and true or false with white space between them, then the line end or a comment |
| TransparentRead.LineEndsMeans | cmd/slimference/hosts_lifecycle.go:143 | what may stand behind the value |
| TransparentRead.ReadMeans | cmd/slimference/hosts_lifecycle.go:142-150 | the reader returns the leftmost match |
| EnvLists.EnvValue | cmd/slimference/codex_desktop_app_server_shim.go:775-783 | the loop from the end finds the last value of a key without an equals sign |
| EnvLists.UpsertLooksUp | cmd/slimference/command_output_first.go:78-100 | after overriding, every key reads the last override of it, or else the old value |
| EnvLists.UpsertFrames | cmd/slimference/command_output_first.go:78-100 | an entry is replaced only where it is the last of an overridden key, by an entry of that key; all others stay in place |
| EnvLists.UpsertEnvAssignments | cmd/slimference/command_output_first.go:78-100 | the two loops and their index of last places do this |
| EnvCommand.InsertBeforeUtility | cmd/slimference/command_output_first.go:208-243 | the scan loop inserts after the arguments it passes; a dangling -u makes it overshoot the list |
| EnvCommand.AssignmentMeans | cmd/slimference/command_output_first.go:236-243 | an argument passes for an assignment exactly when it has an equals sign behind a first character and no space, slash, dot or dash before it |
| EnvCommand.PassedIff | cmd/slimference/command_output_first.go:208-243 | for every command that env(1) accepts and whose only options are -u, the scan stops at the utility exactly when the utility is no flag and every assignment looks like one to the scan |
| EnvCommand.InsertAppends | cmd/slimference/command_output_first.go:208-234 | then env starts the same command, with the inserted assignments applied after its own |
| CodexCommand.CodexEnvCommand | cmd/slimference/proxy_cmd.go:544-605 | the command is built step by step as specified by the next rows |
| CodexCommand.CodexLaunches | cmd/slimference/proxy_cmd.go:544-605 | for every mode, host, port and arguments env starts Codex with its arguments, and the scan would stop at it |
| CodexCommand.LaunchVarsRead | cmd/slimference/proxy_cmd.go:544-605 | Codex sees the proxy settings of the mode, none of the inherited runtime variables, and every other variable unchanged |
| CodexCommand.CodexSees | cmd/slimference/proxy_cmd.go:544-605 | the same by name: which variables are gone and which value the proxy settings of each mode have |
| CodexCommand.TargetIs | cmd/slimference/proxy_cmd.go:560-561 | the proxy address, with an IPv6 host in brackets |
| CodexCommand.InsertIntoCodex | cmd/slimference/command_output_first.go:208-234 | inserting into that command never overshoots, keeps Codex and its arguments, and only appends to what env sets |
| GoQuote.QuoteReadsIff | cmd/slimference/codex_desktop_app_server_shim.go:666-672 | whatever counts as printable, a quoted string is read back by JSON exactly when none of its characters needs an escape that only Go knows, and is refused otherwise |
| GoQuote.ShortEscapes | cmd/slimference/codex_desktop_app_server_shim.go:666-672 | the short escapes that are written |
| GoQuote.LongEscapes | cmd/slimference/codex_desktop_app_server_shim.go:666-672 | all other characters are themselves or the two, four or eight digits of their code point |
| GoQuote.UnescapeCodes | cmd/slimference/codex_desktop_app_server_shim.go:691-695 | the short escapes that are read (section 7 of RFC 8259) |
| GoQuote.SurrogatesRead | cmd/slimference/codex_desktop_app_server_shim.go:691-695 | a pair of escaped surrogates is read as the code point it encodes |
| GoQuote.BlankCodes | cmd/slimference/codex_desktop_app_server_shim.go:691-695 | white space around a literal is skipped, control characters in it are refused |
| GoQuote.BlanksBefore | cmd/slimference/codex_desktop_app_server_shim.go:691-695 | a literal is read behind white space |
| GoQuote.NoLiteral | cmd/slimference/codex_desktop_app_server_shim.go:691-695 | what starts otherwise is no literal |
| GoQuote.DigitValues | cmd/slimference/codex_desktop_app_server_shim.go:691-695 | hexadecimal digits of either case |
| GoQuote.LoneSurrogate | cmd/slimference/codex_desktop_app_server_shim.go:691-695 | a lone surrogate is read as the replacement character |
| DesktopLaunch.BuildAppServerEnv | cmd/slimference/codex_desktop_launcher.go:412-471 | the launcher builds its environment by dropping, fixing and appending |
| DesktopLaunch.KeptLooksUp | cmd/slimference/codex_desktop_app_server_shim.go:758-773 | dropping keys removes exactly those from what is looked up |
| DesktopShim.LaunchLooksUp | cmd/slimference/codex_desktop_launcher.go:412-487 | what each key reads in the launch environment: the fixed value, nothing, or the last value of extras and base, for any base environment and extras |
| DesktopShim.LaunchSays | cmd/slimference/codex_desktop_launcher.go:448-467 | the fixed entries by name and value, whatever base and extras say |
| DesktopShim.LaunchDrops | cmd/slimference/codex_desktop_launcher.go:412-446 | proxy settings, base URLs, certificates and runtime variables come through from neither |
| DesktopShim.LaunchDirectory | cmd/slimference/codex_desktop_launcher.go:473-503 | the working directory comes from the extras alone |
| DesktopShim.BuildShimExec | cmd/slimference/codex_desktop_app_server_shim.go:647-681 | the shim refuses or builds its command in the order of its checks |
| DesktopShim.LaunchIsRead | cmd/slimference/codex_desktop_app_server_shim.go:647-681 | from any launch environment the shim gets the trimmed binary and base URL and the WebSocket flag that the launcher was given, and fails only by its own checks on them |
| DesktopShim.ProviderFromArgv | cmd/slimference/codex_desktop_app_server_shim.go:683-705 | the loop applies the arguments in order |
| DesktopShim.UrlMeans | cmd/slimference/codex_desktop_app_server_shim.go:688-697 | what is no string literal, or an empty one, is read without its quotes |
| DesktopShim.BoolSpellings | cmd/slimference/codex_desktop_app_server_shim.go:698-703 | the spellings of the flag |
| DesktopShim.PlainUrlCodes | cmd/slimference/codex_desktop_app_server_shim.go:721-744 | the characters that a base URL can have |
| DesktopShim.SettingsRead | cmd/slimference/codex_desktop_app_server_shim.go:683-705 | user arguments that set neither the base URL nor the flag change nothing, nor does what stands before the settings |
| DesktopShim.CodexArgsRead | cmd/slimference/proxy_cmd.go:578-590 | the command line of the proxied modes says its base URL and flag to the same reader |
| DesktopShim.UrlReadsIff | cmd/slimference/codex_desktop_app_server_shim.go:683-705 | a base URL survives quoting and reading exactly when it has no character that JSON cannot take back |
| DesktopShim.BellIsLost | cmd/slimference/codex_desktop_app_server_shim.go:683-705 | a URL that is a bell character does not survive |
| DesktopShim.TagIsLost | cmd/slimference/codex_desktop_app_server_shim.go:683-705 | nor does one that is the tag character U+E0001, which Go escapes with eight digits |
| DesktopShim.LaunchRoundTrip | cmd/slimference/codex_desktop_app_server_shim.go:647-744 | whatever the shim agrees to start, the provider read from its arguments has the trimmed base URL and the flag that the launcher was given |
| DesktopShim.ChildEnv | cmd/slimference/codex_desktop_app_server_shim.go:758-773 | the child sees none of the keys of the launch and every other key as the launch had it |
| JsonLines.ChunksUnique | cmd/slimference/codex_desktop_app_server_shim.go:190-210 | a text is read back in the lines it was written in, the last one with or without its newline |
| JsonLines.NumberMeans | cmd/slimference/codex_desktop_app_server_shim.go:387-395 | which texts are numbers of a message (section 6 of RFC 8259) |
| JsonLines.FractionMeans | cmd/slimference/codex_desktop_app_server_shim.go:387-395 | their fractions |
| JsonLines.ExponentMeans | cmd/slimference/codex_desktop_app_server_shim.go:387-395 | their exponents |
| JsonLines.DigitsMean | cmd/slimference/codex_desktop_app_server_shim.go:387-395 | and their digits |
| JsonLines.NestsTo | cmd/slimference/codex_desktop_app_server_shim.go:387-395 | containers may be empty at the last depth and hold nothing that nests at it |
| JsonLines.ReadsObject | cmd/slimference/codex_desktop_app_server_shim.go:387-395 | a line is read as an object exactly if it starts with a brace behind white space and parses as one |
| AppServerRewrites.ThreadStartOutcome | cmd/slimference/codex_desktop_app_server_shim.go:387-424 | exactly the default-provider requests to start a non-voice thread are changed; null parameters panic; every other line is kept |
| AppServerRewrites.ThreadStartReads | cmd/slimference/codex_desktop_app_server_shim.go:387-424 | a changed request reads back, on one line, with the provider set and every other member as it was |
| AppServerRewrites.ThreadStartTwice | cmd/slimference/codex_desktop_app_server_shim.go:387-424 | a changed request is then left alone |
| AppServerRewrites.ConfigOutcome | cmd/slimference/codex_desktop_app_server_shim.go:426-473 | exactly the responses with a config object are changed; a null config panics |
| AppServerRewrites.WithProviderIsMessage | cmd/slimference/codex_desktop_app_server_shim.go:414-423 | setting the provider in a message that JSON can hold leaves one that it can hold |
| AppServerRewrites.WithConfigIsMessage | cmd/slimference/codex_desktop_app_server_shim.go:446-473 | and so does setting the route, which nests three levels deep |
| AppServerRewrites.ConfigReads | cmd/slimference/codex_desktop_app_server_shim.go:426-473 | a changed response reads back, on one line, with the route set and every other member as it was |
| AppServerRewrites.RouteReads | cmd/slimference/codex_desktop_app_server_shim.go:452-519 | the new config names the provider and, with a base URL, lists it in both tables with that URL, its WebSocket flag, its authorisation and its wire in every spelling; all else is as it was |
| AppServerRewrites.ConfigTwice | cmd/slimference/codex_desktop_app_server_shim.go:426-473 | rewriting a response again yields the same bytes |
| StreamImage.ImageLines | cmd/slimference/codex_desktop_app_server_shim.go:190-302 | the lines of a mediated stream are the images of its lines, one for one, each ended as before |
| StreamImage.ImageTwice | cmd/slimference/codex_desktop_app_server_shim.go:190-302 | mediating the mediated stream changes nothing |
| StreamImage.ThreadStartSteady | cmd/slimference/codex_desktop_app_server_shim.go:387-424 | the rewrite of requests meets what the two rows above ask of a rewrite |
| StreamImage.ConfigSteady | cmd/slimference/codex_desktop_app_server_shim.go:426-473 | and so does the rewrite of responses |
| Mediator.Mediator.RewriteStdinLine | cmd/slimference/codex_desktop_app_server_shim.go:255-277 | one line of standard input is noted in one table, taken from the other, logged if it answers a tool call, and rewritten or kept |
| Mediator.Mediator.RewriteResponseLine | cmd/slimference/codex_desktop_app_server_shim.go:279-313 | one line of standard output likewise, with the tables exchanged; the method found for it is passed to the rewrite and returned with its kind |
| Mediator.FoundUnused | cmd/slimference/codex_desktop_app_server_shim.go:304-313 | the outcome of the rewrite does not depend on the method found |
| Mediator.Mediator.TakeResponseMethod | cmd/slimference/codex_desktop_app_server_shim.go:325-335 | a response finds and removes the method remembered for its id |
| Mediator.ResponseFindsRequest | cmd/slimference/codex_desktop_app_server_shim.go:315-385 | a response finds the method of the request with its id, and then it is forgotten; the server's requests are remembered only for tool calls |
| Mediator.OthersUntouched | cmd/slimference/codex_desktop_app_server_shim.go:315-385 | no line changes what a response with another id finds |
| Mediator.NothingNoted | cmd/slimference/codex_desktop_app_server_shim.go:315-385 | messages without an id, with a null one, or without a method are not noted |
| Mediator.LogReads | cmd/slimference/codex_desktop_app_server_shim.go:206-250 | what each line leaves in the log |
| Mediator.KindReads | cmd/slimference/codex_desktop_app_server_shim.go:304-313 | a rewrite is named if there is one, and only then |
| Mediator.Mediator.MediateStdin | cmd/slimference/codex_desktop_app_server_shim.go:190-210 | the loop writes the image of its input, or that of the lines before one that panics |
| Mediator.Mediator.MediateStdout | cmd/slimference/codex_desktop_app_server_shim.go:218-253 | and so does the other loop |
| MediatorRuns.RunInv | cmd/slimference/codex_desktop_app_server_shim.go:190-356 | in every interleaving, each output is the image of the lines written so far, every table entry comes from a line read before, and only tool calls are remembered for the client |
| MediatorRuns.StdinLine | cmd/slimference/codex_desktop_app_server_shim.go:190-277 | undisturbed, the four turns of a line of standard input do to tables, log and output what the object does with it |
| MediatorRuns.StdoutLine | cmd/slimference/codex_desktop_app_server_shim.go:218-313 | and so for standard output |
| MediatorRuns.EndingSteps | cmd/slimference/codex_desktop_app_server_shim.go:190-253 | a failed write ends a goroutine without output, a panic ends both |
| MediatorRuns.OutputIsImage | cmd/slimference/codex_desktop_app_server_shim.go:190-253 | in every interleaving, a stream read to its end has been written as its image |
| MediatorRuns.AnswerIsRewrite | cmd/slimference/codex_desktop_app_server_shim.go:279-313 | with whatever method the table gives, a line is answered by the rewrite of its content |
| MediatorRuns.TablesUnused | cmd/slimference/codex_desktop_app_server_shim.go:279-356 | runs that start with other tables find other methods and log differently, but write the same and panic alike |
| MediatorRuns.Progress | cmd/slimference/codex_desktop_app_server_shim.go:190-253 | without failure a goroutine is done after four turns a line, however interleaved |
| MediatorRuns.NeverCrashesIff | cmd/slimference/codex_desktop_app_server_shim.go:387-473 | no interleaving panics exactly when neither stream holds a line that panics |
| MediatorRuns.CrashingLines | cmd/slimference/codex_desktop_app_server_shim.go:404-452 | such lines: a thread/start request with null parameters, a result with a null config |
| RefetchBudget.RefetchState.Load | cmd/slimference/command_output_first_adaptive.go:115-136 | loading rebuilds the set from the list; without a readable file it starts fresh |
| RefetchBudget.RefetchState.SeenAdd | cmd/slimference/command_output_first_adaptive.go:49-55 | list and set stay in step, and stop growing at the cap |
| RefetchBudget.RefetchState.Record | cmd/slimference/command_output_first_adaptive.go:74-88 | the decision uses the counts before the call, and the state records the call afterwards |
| RefetchBudget.Sidecar.AdaptiveFullPass | cmd/slimference/command_output_first_adaptive.go:62-90 | without a session or a home directory nothing is passed or recorded; otherwise the file holds the call afterwards, unless saving fails |
| RefetchBudget.Sidecar.Overlap | cmd/slimference/command_output_first_adaptive.go:20-26 | two invocations that both load before either saves, each save being one step: both decide from the same counts, and the file holds only the later save |
| RefetchFile.RunWhole | cmd/slimference/command_output_first_adaptive.go:138-152 | if one process at a time is between opening the temporary file and renaming it, the file is, after every step and through crashes, exactly what the last completed save was to write |
| RefetchFile.OverwriteReads | cmd/slimference/command_output_first_adaptive.go:146-150 | byte by byte, what a file reads after writing at an offset |
| RefetchFile.OpenSteps | cmd/slimference/command_output_first_adaptive.go:146-150 | opening empties the temporary file that is there, or makes a new one |
| RefetchFile.WriteSteps | cmd/slimference/command_output_first_adaptive.go:146-150 | writing goes on in the file that was opened, wherever its name leads now |
| RefetchFile.FileSteps | cmd/slimference/command_output_first_adaptive.go:148-151 | giving up leaves the files alone, and so does a rename that finds nothing |
| RefetchFile.IdleSteps | cmd/slimference/command_output_first_adaptive.go:138-152 | a step that its process is not at changes nothing |
| RefetchFile.WholeIff | cmd/slimference/command_output_first_adaptive.go:20-26 | with two processes or more that holds of every run exactly if they save one at a time |
| RefetchFile.TornFile | cmd/slimference/command_output_first_adaptive.go:146-152 | a run of two saves after which the file is empty |
| RefetchFile.MixedFile | cmd/slimference/command_output_first_adaptive.go:146-152 | a run of two saves after which the file holds one text followed by the rest of the other, and nobody writes any more |
| RefetchBudget.RunSession | cmd/slimference/command_output_first_adaptive.go:62-90 | a session of calls with a save and a load between each leaves the counts of the run, and decides each call by the run before it |
| RefetchBudget.SeenIsFirstDistinct | cmd/slimference/command_output_first_adaptive.go:31-55 | the saved identities are the first 4096 distinct ones, in order, without repeats |
| RefetchBudget.CappedRefinesIdeal | cmd/slimference/command_output_first_adaptive.go:62-90 | per class, applied and re-fetched add up to the calls, re-fetched is at most and applied at least the uncapped count, and both are exact up to the cap |
| RefetchDecision.PassedIff | internal/filter/adaptive_budget.go:40-56 | a class is passed exactly when it has five samples and re-fetched is at least the gain of compaction times applied |
| RefetchDecision.NeverOverSuppressesIff | cmd/slimference/command_output_first_adaptive.go:18-31 | the capped counters never pass a class that the uncapped ones would compact, at any ratio, exactly when the cap has not lifted the class over the sample floor |
| RefetchDecision.ExactBelowCap | cmd/slimference/command_output_first_adaptive.go:28-31 | up to the cap the decisions are the same |
| RefetchDecision.OverlapLoses | cmd/slimference/command_output_first_adaptive.go:20-26 | of two overlapping calls of one class exactly one increment is lost, and whether it is an apply or a re-fetch is known from the file and the identities |
| RefetchDecision.OverlapKeepsOthers | cmd/slimference/command_output_first_adaptive.go:20-26 | an overlap of calls with different identities loses nothing of any other class |
| RefetchDecision.OverlapNeverOverSuppressesIff | cmd/slimference/command_output_first_adaptive.go:20-26 | an overlap never passes a class that the same calls one after the other would compact, at any ratio, exactly when the lost increment is a re-fetch, or too few samples are left, or nothing or everything was re-fetched |
| RefetchDecision.OverlapOverSuppresses | cmd/slimference/command_output_first_adaptive.go:20-26 | a file and two calls whose overlap leaves (5, 3) instead of (6, 3), which passes at ratio 0.4 what would have been compacted |
| RefetchDecision.LostRefetch | cmd/slimference/command_output_first_adaptive.go:20-24 | losing a re-fetch only errs towards compacting |
| RefetchDecision.LostApplyIff | cmd/slimference/command_output_first_adaptive.go:20-24 | losing an apply does so exactly when too few samples are left, or nothing or everything was re-fetched |
| RefetchExamples.OverSuppresses | cmd/slimference/command_output_first_adaptive.go:18-31 | a session in which the capped counters pass a class at ratio one half and the uncapped ones do not |
| RefetchExamples.IdentityInjective | cmd/slimference/command_output_first_adaptive.go:102-113 | the bytes hashed for an identity determine command, arguments and directory, if none holds a NUL |
| ContentArchive.NewestKeptIff | internal/contentarchive/contentarchive.go:511-571 | the eviction keeps the newest entry exactly when it fits the byte limit alone |
| ContentArchive.KeptIsWithin | internal/contentarchive/contentarchive.go:511-571 | what it keeps is a run of newest entries within both limits |
| ContentArchive.KeptIsLongest | internal/contentarchive/contentarchive.go:511-571 | and no longer run is |
| ContentArchive.LimitsAre | internal/contentarchive/contentarchive.go:24-31 | the limits: 5000 entries and 64 MiB |
| ContentArchive.HexCodes | internal/contentarchive/contentarchive.go:126-150 | the characters of an entry's name |
| ContentArchive.EligibleMeans | internal/contentarchive/contentarchive.go:117-122 | which originals are worth storing |
| ContentArchive.Archive.EnforceLimits | internal/contentarchive/contentarchive.go:511-571 | the loop evicts from the old end to that run |
| ContentArchive.Archive.Put | internal/contentarchive/contentarchive.go:126-208 | too short or blank inputs are not stored, a stored entry is left alone, a new one is put in front and the limits enforced |
| ContentArchive.NeverWrong | internal/contentarchive/contentarchive.go:250-277 | a URI handed out for some bytes never expands to others |
| ContentArchive.StoredExpandsIff | internal/contentarchive/contentarchive.go:126-208 | right after storing, the bytes expand exactly when they were there before or their file fits the limit |
| ContentArchive.OversizedIsLost | internal/contentarchive/contentarchive.go:511-571 | a file over the limit is evicted by the put that stored it |
| OutputFirst.StdoutAlone | cmd/slimference/command_output_first.go:1953-1985 | standard output alone: after a failure its diagnosis, otherwise the form of repeated output or else the regular one |
| OutputFirst.StderrAlone | cmd/slimference/command_output_first.go:1953-1985 | standard error alone: after a failure its diagnosis, otherwise nothing |
| OutputFirst.BothStreams | cmd/slimference/command_output_first.go:1953-2015 | of two streams, standard output first, by the compactor for its exit code, then after a failure standard error; and only if both together get cheaper |
| OutputFirst.PositiveMeans | internal/filter/engine.go:36-45 | cheaper means fewer tokens of four bytes |
| OutputFirst.OtherStreamPasses | cmd/slimference/command_output_first.go:1953-2015 | the other stream passes untouched and the accounting is of both |
| OutputFirst.MarkedUriReads | cmd/slimference/command_output_first.go:2281-2308 | the last line of a marked output names the URI, whatever was compacted |
| OutputFirst.MarkerIs | cmd/slimference/command_output_first.go:2302-2308 | the letter of the marker |
| OutputFirst.RunShim | cmd/slimference/command_output_first.go:250-309 | the exit code is that of the child; either both streams are as they were, or one is shorter, ends in a marker and the other is untouched, with the accounting of both; the short form is written exactly if a compactor took the stream, the adaptive budget allows it, the original could be archived and the result with its marker is estimated cheaper; and the marked URI expands to the replaced bytes exactly when they were archived before or fit the archive |
| RecertLock.RunGuarded | cmd/slimference/codex_recert.go:515-554 | if the stale test and the removal are one step and only locks of dead owners grow old, the file at the path is always that of the live holder |
| RecertLock.LockSteps | cmd/slimference/codex_recert.go:515-534 | what creating, marking, unlocking and removing do to the file, and that a crash leaves it |
| RecertLock.JudgedIff | cmd/slimference/codex_recert.go:536-554 | a process refuses exactly if the lock is gone, or neither old nor marked by another, dead process |
| RecertLock.AgeSteps | cmd/slimference/codex_recert.go:541-543 | any lock file grows old, unless the rules spare those of live holders |
| RecertLock.IdleSteps | cmd/slimference/codex_recert.go:515-554 | a step that its process is not at changes nothing, and marking leaves another's lock alone |
| RecertLock.ExclusiveIff | cmd/slimference/codex_recert.go:515-554 | no run of three or more processes has two live holders exactly when both hold |
| RecertLock.AgedTakeOver | cmd/slimference/codex_recert.go:541-543 | a live lock older than thirty minutes is taken over |
| RecertLock.SlowRemoval | cmd/slimference/codex_recert.go:520-525 | two processes judge one dead lock, and the slower one removes the lock of the faster one |
| RecertLock.DeadLockTakenIff | cmd/slimference/codex_recert.go:515-554 | a process that finds the lock of a dead owner can take it by some steps of its own exactly if the pid was written or it is old; otherwise no steps of its own ever make it a holder |
| RecertProof.DeltaIsLower | cmd/slimference/codex_recert.go:433-438 | over any increments and restarts the difference never exceeds what was counted |
| RecertProof.DeltaExactIff | cmd/slimference/codex_recert.go:433-438 | and equals it exactly without a restart, or if nothing was counted before the last one and the count cannot pass for growth |
| RecertProof.Failures | cmd/slimference/codex_recert.go:394-401 | the loop lists the failed criteria, each once and in order |
| RecertProof.GatesOnReadings | cmd/slimference/codex_cmd.go:576-594 | what the two gates ask of two readings, counter by counter |
| RecertProof.GatesOnDelta | cmd/slimference/codex_cmd.go:576-594 | what they ask of the counters of a difference, whatever the sign |
| RecertProof.GatesOnWindow | cmd/slimference/codex_recert.go:380-438 | where the readings are exact, so without a restart always, each gate passes exactly when what happened in the window is what it asks for |
| RecertProof.PassedMeansUnbroken | cmd/slimference/codex_recert.go:380-438 | a passed gate shows of each counter with exact readings that nothing failed, and the bridge gate that nothing was re-encoded or mutated |
| RecertProof.PhaseFNames | cmd/slimference/codex_cmd.go:576-586 | the names under which each failure of the Phase-F gate is listed |
| RecertProof.BridgeNames | cmd/slimference/codex_recert.go:380-393 | and of the bridge gate |
| RecertProof.PhaseFMeansMutation | cmd/slimference/codex_cmd.go:576-594 | a passed Phase-F proof shows frames re-encoded and messages mutated in the window, restarts or not |
| RecertProof.BridgeMeansTraffic | cmd/slimference/codex_recert.go:380-401 | a passed bridge proof shows bytes both ways, a bridged connection and frames in the window |
| RecertProof.NeverBoth | cmd/slimference/codex_recert.go:147-172 | no two readings pass both gates |
| RecertProof.ZeroDeltaIff | cmd/slimference/codex_recert.go:403-431 | a difference of zero shows that nothing was counted exactly when it is exact |
| RecertProof.RestartHidesFailure | cmd/slimference/codex_recert.go:403-431 | a restart hides a parse failure from the gates |
| RecertLog.Log.AppendLine | cmd/slimference/codex_recert.go:658-675 | one append rotates a full file and writes the line, or fails as stated |
| RecertLog.LogKeepsEnd | cmd/slimference/codex_recert.go:658-675 | the rotated and the current file together are the end of what was logged, whatever fails |
| RecertLog.LogIsBounded | cmd/slimference/codex_recert.go:658-675 | neither file grows past the limit |
| RecertLog.LogKeepsLimit | cmd/slimference/codex_recert.go:658-675 | while nothing fails they hold everything, or more than the limit |
| HostsReload.Daemon.ApplyHostsPatch | cmd/slimference/hosts_lifecycle.go:31-65 | a patch is applied only if the mode is on, and its closure is returned |
| HostsReload.Daemon.RunCleanup | cmd/slimference/hosts_lifecycle.go:50-64 | a closure reverses its patch once and disarms only if that works |
| HostsReload.Daemon.ReloadSNIPeekMode | cmd/slimference/hosts_lifecycle.go:77-129 | a reload arms, disarms or only takes over the mode |
| HostsReload.Daemon.Stop | cmd/slimference/headless.go:80-87 | shutdown runs the cleanup and stops the engine |
| HostsReload.RunInv | cmd/slimference/hosts_lifecycle.go:31-129 | in every run armed means patched, the stored cleanup of an armed running daemon is the closure of the patch in force, which has not run, and no patch is reversed twice |
| HostsReload.ArmedIffPatched | cmd/slimference/hosts_lifecycle.go:31-129 | over startup, reloads and shutdown the armed flag tells after every event whether the file is patched, exactly when no reload that switches a running, switched-on daemon off fails to reverse |
| HostsReload.ArmedIffPatchedWhenReversalsWork | cmd/slimference/hosts_lifecycle.go:31-129 | so if the reversals of all reloads work, armed means patched after every run, shutdown included |
| HostsReload.ArmedIsSwitchedOn | cmd/slimference/hosts_lifecycle.go:31-129 | the armed flag is what the events say: the last effective one switched on by an apply that worked |
| HostsReload.PatchedIsLeft | cmd/slimference/hosts_lifecycle.go:31-129 | and whether the file is patched is what they say: only a working reversal of a switched-on daemon takes a patch away |
| HostsReload.ArmedIffPatchedAtEnd | cmd/slimference/hosts_lifecycle.go:31-129 | at the end of a run the flag tells the truth exactly when every failed reversal was followed by a reload that switched the mode on with an apply that worked |
| HostsReload.OffUnpatchesIff | cmd/slimference/hosts_lifecycle.go:110-128 | from any reachable state a reload that reads off leaves no engine, and no patch exactly when there was none or its reversal works |
| HostsReload.FailedReversal | cmd/slimference/hosts_lifecycle.go:110-121 | a daemon started armed and switched off while the reversal fails stays patched, unarmed and without a cleanup |
| HostsReload.ShutdownUnpatchesIff | cmd/slimference/headless.go:80-87 | a shutdown leaves no engine, and no patch exactly when there was none or the daemon was armed and its reversal works |
| SwitchRoundTrip.DisableTakesEffect | cmd/slimference/hosts_lifecycle.go:77-129 | switching off by the edit and reloading leaves neither patch nor engine, whatever the daemon has been through, if its reversals work |
| SwitchRoundTrip.EnableTakesEffect | cmd/slimference/hosts_lifecycle.go:77-129 | switching on leaves it armed with the closure of the patch in force, if it was armed or the apply works |

## Left out

- Integers are unbounded: overflow of `int64` counters is not modelled, but for the digit strings of chunk references.
- Prices, ratios and rates are reals with exact floors; IEEE rounding is not modelled.
- Savings: rows are values in maps, so that two map entries sharing one row object is not modelled; the estimator of session lengths and the matching of sessions to local threads are parameters; evidence and mechanisms are taken as the record has them after their defaults are filled in; the text, CSV and JSON reports are left out.
- SavingsLedger.Ledger.Accumulate: the mechanism table and the counters of requests with cache creates or with negative net are left out.
- SavingsRoutes.BuildRoutes: hit rates, cached shares and the other quotients, and the final sorting, are left out.
- SavingsReport.FinishSessions: hit rates, cached shares and the sorting of the sessions are left out.
- SavingsReport.Report: leaves out what the rows above leave out, and the enrichment of sessions with thread metadata; the bound on the bill is stated for logs without negative counts.
- Strings are sequences of characters; UTF-8 and case folding beyond ASCII are not modelled.
- JSON is a tree with a printer and a parser. They are assumed to undo each other on trees whose numbers follow the grammar of RFC 8259 and whose nesting is at most 10000 deep; the bytes inside kept values, the order of members and duplicate keys are not modelled. Partial writes of the mediator are left out.
- Which characters above U+007F are printable is a parameter of the quoting.
- TOML is read line by line: a header or key inside a multi-line string counts as one. The key of the edit is a bare key and its value true or false, as the only caller has it.
- EnvCommand.PassedIff: env(1) options other than `-u` are not read.
- DesktopShim.BuildShimExec: the check of the binary is a parameter, and so is what the check of the base URL asks beyond printable ASCII without blanks.
- The compactors, the capture allow-lists and the session cache of repeated output are parameters. SHA-256 is a hash that does not collide. Modification times of archive entries are taken as increasing.
- ContentArchive.Archive.Put: a file operation fails before anything is visible; failures after the entry has become visible are left out.
- RefetchBudget.Sidecar.Overlap: two invocations only, each save being one step; how saves are made of steps is in `RefetchFile`.
- RefetchDecision.LostApplyIff: speaks of counts alone; the overlap that loses the apply is in `RefetchDecision.OverlapLoses`.
- RefetchDecision.LostRefetch: likewise.
- RecertLock.ExclusiveIff: starts from no lock file and processes that acquire once; a process that exits releases nothing but by its unlock.
- RecertLog.Log.AppendLine: a failed write leaves no part of the line.
- HostsReload.Daemon.ApplyHostsPatch: the plan is one patch in force or none; the contents of the hosts file and the certificate and port checks of the engine are outcomes from outside.
- Process spawning, signals, HTTP and admin calls, SQLite, launchd, Keychain, packet filters and the terminal interface; flag parsers, help texts, desktop proof strings and soak verdicts.
