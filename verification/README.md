# Paper-lab gates and evidence: a verified model

The repository gates a paper-trading lab: ledgers, plans, packets and order requests that must fail
closed. This project models the parts that carry invariants over unbounded inputs or runs, and proves
them. `dafny verify dfyconfig.toml` checks everything.

| part | modules |
|---|---|
| write-ahead attempt ledger of the read-only network executor: record checks, one-pass validator, apply steps with stops anywhere | `LedgerRecord`, `NetworkLedger`, `NetworkExecutor` |
| rolling SMA and RSI, and the histogram evidence over windows | `RollingIndicators`, `WindowEvidence` |
| development autopilot: file policy, gates, git mutation, review and finalization packets, PowerShell quoting | `PathPolicy`, `PowerShellQuoting`, `AutopilotRecords`, `AutopilotWorld`, `AutopilotGates`, `DevelopmentAutopilot` |
| bounded-probe lifecycle plan, and the order request its ids must pass | `LifecycleBindings`, `LifecycleDocuments`, `LifecyclePlan`, `LifecycleAcceptance`, `OrderGate`, `OrderAnswers` |
| submit adapter in front of the broker client | `SubmitAdapter` |
| crypto bars intake and its canonical CSV | `CsvText`, `CryptoBars`, `CryptoBarsIntake`, `CryptoRows` |
| exact test sharding | `TestSharding` |
| next-action planner and gated offline executor | `NextPlan`, `SupervisorPlans`, `OfflineExecutor` |
| shared | `Gates`, `Text`, `FixedPoint`, `JsonValue`, `Seqs`, `Sorting`, `Wrappers` |

Agents, git, verification commands, the broker client and network adapters are oracles: values or
functions a theorem quantifies over. Code that loops or updates objects is written as methods and
classes, proved against functions or predicates about which the lemmas speak.

What a component decides step by step is stated a second time as a list of requirements, each with what
happens when it fails (`Gates.Require`), in terms of what a caller can see: in `AutopilotGates` for a
run, in `LifecycleDocuments` and `LifecycleAcceptance` for a plan, in `OrderAnswers` for an order
request, in `CryptoRows` for a row of cells, in `SupervisorPlans` for a report. The answer is proved to
be the first requirement that fails, for every input, so success and every failure are exact.

## Where the code does not meet its promise

The condition under which each promise holds, or fails, is proved in both directions, and each failure
has a concrete input.

- The ledger writer records an adapter refresh state without looking at it, and the validator refuses
  an empty one, which then locks every session out for good. What that asks of an adapter is exact:
  every run over its refresh states keeps the ledger acceptable if and only if none of them is empty
  (`AdapterKeepsLedgerIff`), and a single call does the damage exactly when it reaches the network and
  the adapter returns "" (`ApplyDamagesIff`, `EmptyStateDamages`, `EmptyStateLocksOutForGood`). The one
  adapter the repository has cannot: every `_manifest` call in
  `src/algotrader/execution/etf_sma_adjusted_spy_data_refresh.py:578-947` passes a non-empty literal,
  stored unchanged at line 1034, and a missing state is read as "unknown" (executor, line 713). So this
  is a condition on the next adapter, not a run that happens.
- The PowerShell quoting escapes ASCII quotes only. What reaches it is the work order's commit message,
  between double quotes, and the names of the changed files, in a double-quoted array and as
  single-quoted `git add` arguments. A commit message with typographic quotes gets there in any
  repository. A file name with them gets there as it is only where git's `core.quotePath` is off; by
  default `git status` escapes it. The shell reads a rendered text back if and only if it holds no
  typographic quote of the kind the string is delimited by (`DoubleQuotedReadsBackIff`,
  `ArrayReadsBackIff`, `ArgsReadBackIff`; `CurlyQuotesDoNotReadBack` for one message and one file name).
- The canonical bars CSV is written with minimal quoting and read through `str.splitlines`, which splits
  at more characters than the writer quotes. Its own output is accepted again, with the same rows, if
  and only if basis and source hold no such character unquoted (`IntakeFixpoint`,
  `LineSeparatorIsUnsafe`).
- The lifecycle plan validator accepts plans the builder never makes. It strips and lower-cases digests,
  and it compares numbers and flags as Python does, so 168.0 passes for 168, `true` for 1 and 0 for
  `false`. Accepted, for a plan with canonical times and digests, means exactly: made as the builder
  makes it, from documents that pass, with numbers that compare equal to the builder's
  (`AcceptedTextsExactly`, `AcceptedDormantExactly`). The plan is the builder's own if and only if its
  numbers are spelled as integers and its flags as booleans too (`OneCanonicalForm`, `DormantForm`).
  Every other spelling of the numbers gives an accepted twin of a built plan (`LooseNumbersAccepted`,
  `FloatHoursAccepted`, `PaddedFingerprintAccepted`). The authority flags are not under the identity
  fingerprint, so a twin that spells them 0 shares it with the builder's plan
  (`ZeroAuthoritySharesIdentity`); plans with one fingerprint still say the same
  (`IdentityNamesOnePlan`).
- Adding the entry window to a time in the last quarter of an hour of year 9999 raises, in builder and
  validator. Where symbol and documents pass, that is the only readable time the builder fails on, and
  no ready plan is accepted there (`BuildFailsOnInputsOnly`, `LastQuarterHourHasNoPlan`).
- The ledger validator compares the verdict of a completion with that of its reservation as Python does,
  so one may say 1 where the other says `true` (`RespelledVerdictCompletes`). Lawfulness is stated with
  that comparison.
- A work-order path that names no component, such as ".", makes the path check raise instead of
  reporting an error (`PathPolicy.RaisesIff`, `PathPolicy.DotRaises`). It does for a work order exactly
  when neither path list has a blank entry, which is refused before, and the first faulty path is such
  a path (`LoadWorkOrder`).

## Reading conventions

- `real` stands for `Decimal`. Timestamps are integers in microseconds; in the lifecycle plan they count
  from the first instant of a `datetime` and end with its last.
- `Text.Lower` and `Text.Upper` map ASCII letters and the few other characters whose case image is one
  ASCII letter; other letters map to themselves, which no comparison in the modelled code can tell.
- `Codec`, `Clock` and `Hashes` are records of functions for timestamps, decimals and SHA-256. What a
  result needs of them is in its `requires`: `Faithful`, `ClockReads`, `Hex`, `NoCollision`. `Faithful`
  asks of decimals only that a text without an exponent means the digits it spells; that printing and
  reading back then keeps every amount is proved.
- Where the code compares a decoded JSON value with `==` and more than one JSON spelling is equal, the
  field is a `JsonValue.Value`; where it goes through `str`, a `JsonValue.Field`. Where it asks
  `is True` or compares with a string, the field is a `bool` or a `string`.
- `Contract` holds the fixed words of the lifecycle plan; `V530` has the actual ones, and the results
  hold for any.
- The submit adapter takes the request constructor as the field `gate`, so that results say what they
  need of it: nothing, that it keeps ids, or that it is `OrderGate.Construct`.

## Model

| member | source | states |
|---|---|---|
| `LedgerRecord.RunIdInjective` | src/algotrader/execution/autonomy_read_only_network_executor.py:576 | two run ids are equal only if session text and attempt number are, hyphens and digits inside the session included |
| `LedgerRecord.WriterRoundTrip` | src/algotrader/execution/autonomy_read_only_network_executor.py:244-346 | validating a line the writer built gives back exactly the event written when session, as-of and refresh state are non-empty and the attempt is positive, and is corrupt otherwise |
| `LedgerRecord.ReservationIdOf` | src/algotrader/execution/autonomy_read_only_network_executor.py:308-313 | a line the validator accepts carries as reservation id the run id of its own session and attempt, and none when it is a refusal |
| `LedgerRecord.DecodesIff` | src/algotrader/execution/autonomy_read_only_network_executor.py:264-346 | a line states an event if and only if the writer may write that event and the line is, field by field, the writer's own, up to the spelling of its schema version and exit code; so nothing else is let through |
| `LedgerRecord.AcceptedLinesClaimNothing` | src/algotrader/execution/autonomy_read_only_network_executor.py:278-290 | every accepted line says that no broker was touched, nothing was submitted or traded, live trading was not authorized and no profit is claimed, and claims network access only when it is a completion |
| `NetworkLedger.ReadAndValidateLedger` | src/algotrader/execution/autonomy_read_only_network_executor.py:244-420 | the one-pass validator succeeds if and only if the ledger could have been written, line by line and up to the spelling of numbers, from lawful events (reservations numbered 1..N per session without repeats, every completion matching one earlier reservation as Python compares, none completed twice), and then returns the number of attempts those events reserve for the session |
| `NetworkLedger.AcceptedIffWritten` | src/algotrader/execution/autonomy_read_only_network_executor.py:244-420 | a ledger is accepted if and only if it could have been written from lawful events |
| `NetworkLedger.ScanLines` | src/algotrader/execution/autonomy_read_only_network_executor.py:244-406 | for any per-record check, the loop over the lines keeps its dictionaries equal to what the lines read so far say, and stops exactly at the first line that is corrupt or cannot follow them |
| `NetworkLedger.LookupDecidesAdmissible` | src/algotrader/execution/autonomy_read_only_network_executor.py:323-371 | looking ids up in the dictionaries decides whether an event may follow, because ids are injective |
| `NetworkLedger.AttemptsAreNumbered` | src/algotrader/execution/autonomy_read_only_network_executor.py:408-415 | the closing loop accepts if and only if every session's attempt numbers are 1..N |
| `NetworkLedger.InadmissibleRejects` | src/algotrader/execution/autonomy_read_only_network_executor.py:323-406 | no continuation can make a ledger lawful again after an offending line |
| `NetworkLedger.LawfulExtend` | src/algotrader/execution/autonomy_read_only_network_executor.py:575-730 | appending the next-numbered reservation, an admissible completion or a refusal keeps a lawful ledger lawful |
| `NetworkLedger.TrackEvent` | src/algotrader/execution/autonomy_read_only_network_executor.py:323-406 | one pass of the loop admits an event if and only if it may follow the events read, and then its dictionaries say what those events and this one say |
| `NetworkLedger.RespelledVerdictCompletes` | src/algotrader/execution/autonomy_read_only_network_executor.py:360-369 | a completion whose verdict says true where the reservation says 1 still completes it |
| `JsonValue.JsonEqualsItself` | src/algotrader/execution/autonomy_read_only_network_executor.py:365 | every JSON value equals itself under Python's comparison, so a completion that repeats its verdict matches |
| `JsonValue.JsonEqualsEither` | src/algotrader/execution/autonomy_read_only_network_executor.py:365 | that comparison is symmetric, so it does not matter which record's verdict stands on the left |
| `JsonValue.JsonEqualsChains` | src/algotrader/execution/autonomy_read_only_network_executor.py:365 | that comparison of objects, lists and numbers is transitive |
| `NetworkLedger.NextReservationIsFresh` | src/algotrader/execution/autonomy_read_only_network_executor.py:575-576 | on a validated ledger the next derived id occurs in no line as a reservation id |
| `NetworkExecutor.RunInvariant` | src/algotrader/execution/autonomy_read_only_network_executor.py:555-746 | after every run of begin, call, complete and stop steps the ledger is accepted, within budget and covers every call, unless some completion reported an empty refresh state, after which nothing moves |
| `NetworkExecutor.WriterNeverLocksItselfOut` | src/algotrader/execution/autonomy_read_only_network_executor.py:244-420 | over every run from the empty ledger, stops after a reservation included, the validator accepts what the writer left if and only if no completion reported an empty refresh state; it then counts exactly the session's pending records, at most four |
| `NetworkExecutor.EmptyStateLocksOutForGood` | src/algotrader/execution/autonomy_read_only_network_executor.py:711-730 | one empty refresh state, which the writer does not refuse and the validator does, makes every later step of every session a no-op |
| `NetworkExecutor.AdapterKeepsLedgerIff` | src/algotrader/execution/autonomy_read_only_network_executor.py:711-730 | for any set of refresh states an adapter may report, every run over them leaves a ledger the validator accepts if and only if the empty text is not among them |
| `NetworkExecutor.EmptyStateDamages` | src/algotrader/execution/autonomy_read_only_network_executor.py:711-730 | the three steps begin, call, complete with an empty state damage the ledger |
| `NetworkExecutor.ApplyDamagesIff` | src/algotrader/execution/autonomy_read_only_network_executor.py:549-746 | one apply call on a sound ledger leaves it refused if and only if an attempt is free, interlock and credential pass, and the adapter returns the empty text |
| `NetworkExecutor.CountIsReservations` | src/algotrader/execution/autonomy_read_only_network_executor.py:408-420 | on an ordered ledger the validator's set-based count is the number of pending records of the session |
| `NetworkExecutor.AtMostFourCallsPerSession` | src/algotrader/execution/autonomy_read_only_network_executor.py:578-605 | in every run at most four network calls are made for one session |
| `NetworkExecutor.CallsFollowTheirReservations` | src/algotrader/execution/autonomy_read_only_network_executor.py:672-711 | in every run each network call was preceded in the ledger by its own pending record, whose id no other call has |
| `NetworkExecutor.Executor.Apply` | src/algotrader/execution/autonomy_read_only_network_executor.py:549-746 | one apply call under the lock changes ledger and calls exactly as its steps do, returns the result those steps determine, and leaves the lock as it found it |
| `NetworkExecutor.Executor.AppendLedgerEvent` | src/algotrader/execution/autonomy_read_only_network_executor.py:423-429 | appends one line, which reads back as the event or as a corrupt line |
| `NetworkExecutor.DecisionMeans` | src/algotrader/execution/autonomy_read_only_network_executor.py:575-671 | an attempt is reserved if and only if fewer than four were, the interlock lets it through and the credential is there; otherwise the refusal is the first of the three that fails, under the next attempt number |
| `NetworkExecutor.CompletionMeans` | src/algotrader/execution/autonomy_read_only_network_executor.py:711-730 | a completion matches its reservation, and its line has exit code 0 exactly for a refresh state that begins with accepted |
| `NetworkExecutor.ResultMeans` | src/algotrader/execution/autonomy_read_only_network_executor.py:549-746 | one call is refused as corrupt exactly on a ledger that is not accepted, refused exactly when no attempt is reserved, and ends with exit code 0 or 1 exactly when the adapter returns an accepted or another state |
| `RollingIndicators.RollingSma` | scripts/research/run_strategy_router_shadow_oos_replay.py:780-791 | the running-sum loop returns at every index the mean of exactly the last `window` closes, and None before they exist |
| `RollingIndicators.RollingRsi` | scripts/research/run_strategy_router_shadow_oos_replay.py:794-838 | the running-sum loop refines the plain definition: from index `window` on its averages are the mean gain and mean loss over exactly the last `window` changes, and the RSI is theirs |
| `RollingIndicators.HoldsExactlyTheWindow` | scripts/research/run_strategy_router_shadow_oos_replay.py:812-823 | the eviction test that looks one step late holds nothing extra, because the first change is zero |
| `RollingIndicators.AveragesTelescope` | scripts/research/run_strategy_router_shadow_oos_replay.py:808-830 | average gain minus average loss is (close[i] - close[i - w]) / w |
| `RollingIndicators.RsiAsShare` | scripts/research/run_strategy_router_shadow_oos_replay.py:831-838 | the nested quotient is 100 * gain / (gain + loss) |
| `RollingIndicators.RsiInRange` | scripts/research/run_strategy_router_shadow_oos_replay.py:831-838 | the RSI lies in [0, 100] wherever it is defined |
| `RollingIndicators.RsiScaleInvariant` | scripts/research/run_strategy_router_shadow_oos_replay.py:794-838 | multiplying all closes by a positive factor leaves the RSI unchanged |
| `RollingIndicators.RsiReflection` | scripts/research/run_strategy_router_shadow_oos_replay.py:794-838 | reflecting the series to K - close turns the RSI into 100 - RSI |
| `RollingIndicators.IndicatorsIgnoreTheFuture` | scripts/research/run_strategy_router_shadow_oos_replay.py:780-838 | the SMA and RSI at row i of a prefix are those of the whole series |
| `RollingIndicators.ReflectionMirrorsPostures` | scripts/research/run_strategy_router_shadow_oos_replay.py:890-901 | reflection exchanges the oversold and overbought postures and no others |
| `RollingIndicators.ThresholdsCompareMeans` | scripts/research/run_strategy_router_shadow_oos_replay.py:890-901 | the 30 and 70 thresholds compare the two means of changes, 7 gain <= 3 loss and the reverse |
| `RollingIndicators.RowPostures` | scripts/research/run_strategy_router_shadow_oos_replay.py:841-901 | a row's posture is insufficient history exactly when its indicator is None; otherwise the SMA posture compares the two window means and the RSI posture the two means of changes |
| `WindowEvidence.FrequencyByProducts` | scripts/research/run_strategy_router_shadow_oos_replay.py:978-994 | the frequency class is decided by comparing 100 * triggers with the row count and with 35 times it |
| `WindowEvidence.FrequencyBetween` | scripts/research/run_strategy_router_shadow_oos_replay.py:978-994 | the class of two blocks together lies between the classes of the blocks (mediant inequality) |
| `WindowEvidence.BuildWindowSummary` | scripts/research/run_strategy_router_shadow_oos_replay.py:475-583 | a summary exists exactly when the window is non-empty and holds no mutable RSI row, and then every histogram, count and date list is the one of its rows |
| `WindowEvidence.CountersMeasureRows` | scripts/research/run_strategy_router_shadow_oos_replay.py:485-533 | every counter of the loop equals the count, histogram or first-five list it stands for |
| `WindowEvidence.WindowsAreSlices` | scripts/research/run_strategy_router_shadow_oos_replay.py:704-763 | the windows are non-empty stretches told apart by id; trailing windows nest and the halves meet |
| `WindowEvidence.WindowsExist` | scripts/research/run_strategy_router_shadow_oos_replay.py:704-763 | the windows are exactly the last 260 rows, the last 756 and 1260 when there are that many, all rows, and two halves from 520 rows on |
| `WindowEvidence.WindowsInPlace` | scripts/research/run_strategy_router_shadow_oos_replay.py:704-763 | the windows come in the order recent, three years, five years, full, earlier and later half |
| `WindowEvidence.CountsSumToRows` | scripts/research/run_strategy_router_shadow_oos_replay.py:485-533 | SMA counts, RSI counts and route reasons each add up to the row count |
| `WindowEvidence.SplitWindowsConserve` | scripts/research/run_strategy_router_shadow_oos_replay.py:485-533 | every count of two adjacent windows adds up to the count of their union |
| `WindowEvidence.SplitWindowsBracketFrequency` | scripts/research/run_strategy_router_shadow_oos_replay.py:978-994 | the class of the union lies between the classes of the halves; equal classes are inherited |
| `WindowEvidence.NestedWindowsMonotone` | scripts/research/run_strategy_router_shadow_oos_replay.py:704-763 | counts never decrease from a window to one that contains it |
| `WindowEvidence.HalvesMakeTheWhole` | scripts/research/run_strategy_router_shadow_oos_replay.py:641-763 | in every replay each count of the earlier and the later half adds up to that of the full window, whose class lies between theirs |
| `WindowEvidence.TrailingWindowsAscend` | scripts/research/run_strategy_router_shadow_oos_replay.py:641-763 | in every replay no count decreases from the recent window through the trailing ones to the full one |
| `WindowEvidence.SummarizeWindows` | scripts/research/run_strategy_router_shadow_oos_replay.py:181-255 | all windows are summarized, or the replay is refused, exactly according to whether some window holds a mutable RSI row |
| `WindowEvidence.BuildReplay` | scripts/research/run_strategy_router_shadow_oos_replay.py:641-701 | a replay exists exactly for enough rows of which none is a mutable RSI row, and then holds the summary of every window; its recommendation is a backtest exactly when some row anywhere conflicts or is blocked, else a threshold review exactly when some window is out of band, else keep |
| `PowerShellQuoting.ThreeReplacementsAreOnePass` | src/algotrader/development_autopilot.py:2983-2988 | three successive replacements equal one pass that puts a backtick before each special character |
| `PowerShellQuoting.DoubleQuotedReadsBackIff` | src/algotrader/development_autopilot.py:2979-2988 | the shell reads the double-quoted text back as the value if and only if the value holds none of the typographic double quotes U+201C to U+201E, which the code does not escape |
| `PowerShellQuoting.TypographicNeverReadsBack` | src/algotrader/development_autopilot.py:2983-2988 | a value with a typographic double quote is never read back, whatever follows its closing quote |
| `PowerShellQuoting.ArrayReadsBackIff` | src/algotrader/development_autopilot.py:2963-2969 | the rendered `@(...)` reads back as the exact file list if and only if no name holds a typographic double quote |
| `PowerShellQuoting.ArgReadsBackIff` | src/algotrader/development_autopilot.py:2972-2976 | one command argument reads back if and only if it holds no typographic single quote U+2018 to U+201B |
| `PowerShellQuoting.ArgsReadBackIff` | src/algotrader/development_autopilot.py:2972-2976 | the argument list reads back as the exact file list if and only if no name holds a typographic single quote |
| `PowerShellQuoting.BareIff` | src/algotrader/development_autopilot.py:2972-2976 | an argument goes out bare if and only if it is not empty and holds only the listed characters |
| `PowerShellQuoting.VerbatimConserves` | src/algotrader/development_autopilot.py:2972-2976 | reading a verbatim string consumes each ordinary character once and quotes in pairs or singly at the end, the counting behind the single-quote result |
| `PowerShellQuoting.CurlyQuotesDoNotReadBack` | src/algotrader/development_autopilot.py:2963-2988 | a commit message with curly double quotes and a file name with a curly apostrophe are not read back; the file name is, between double quotes |
| `PathPolicy.PathPolicyError` | src/algotrader/development_autopilot.py:1406-1426 | the two validation loops find no error if and only if every forbidden path is relative and every allowed path is a single allowlistable file outside all forbidden prefixes, and otherwise report the first fault, forbidden paths first |
| `PathPolicy.NormalizeIdempotent` | src/algotrader/development_autopilot.py:1451-1455 | normalizing a path twice is normalizing it once |
| `PathPolicy.NormalizeDirectoryIdempotent` | src/algotrader/development_autopilot.py:1451-1455 | normalizing a directory twice adds no second slash |
| `PathPolicy.ForbiddenMeans` | src/algotrader/development_autopilot.py:1458-1470 | the forbidden test, which normalizes its inputs again, decides membership under a default or given prefix or a protected CSV name |
| `PathPolicy.RaisesIff` | src/algotrader/development_autopilot.py:1439-1448 | the path check raises instead of reporting an error exactly on a non-blank relative path whose slash-separated parts are all empty or dots |
| `PathPolicy.DotRaises` | src/algotrader/development_autopilot.py:1439-1448 | the path "." makes the check raise |
| `PathPolicy.RelativePathMeans` | src/algotrader/development_autopilot.py:1439-1448 | every answer of the relative-path check, by the text and the parts between its slashes: blank, absolute or with a colon in its first real part, without a component, or with a part that goes up |
| `PathPolicy.AllowedFileMeans` | src/algotrader/development_autopilot.py:1406-1436 | a file may be listed if and only if its path is relative, names one file (a suffix, no star, not a listed directory) and is not forbidden; the first of these that fails is the error |
| `PathPolicy.SuffixMeans` | src/algotrader/development_autopilot.py:1434 | the suffix of a path is what follows the last dot of its last name, dot included, when something stands on either side of it |
| `PathPolicy.SplitMeans` | src/algotrader/development_autopilot.py:1443 | the parts of a path hold no slash and joined by slashes are the path |
| `PathPolicy.ForbiddenIsForbidden` | src/algotrader/development_autopilot.py:1458-1470 | the forbidden test, on an order's own list, decides whether the path lies within a default or listed place, or is a CSV of market or operator data |
| `PathPolicy.PolicyReasonMeans` | src/algotrader/development_autopilot.py:1807-1839 | for any lists the verdict on a change set is forbidden if some path is, not allowed if none is but some path is outside the allowlist, and clean otherwise |
| `PathPolicy.AllowlistDecides` | src/algotrader/development_autopilot.py:1406-1426 | in a validated work order a path is unexpected if and only if its normal form is not in the allowlist |
| `PathPolicy.ChangedFilePolicyIsExact` | src/algotrader/development_autopilot.py:1807-1839 | for a validated work order the policy accepts a change set if and only if every normalized path is allowlisted |
| `PathPolicy.AcceptedChangesAvoidForbidden` | src/algotrader/development_autopilot.py:1807-1839 | for any lists an accepted change set holds no path under a forbidden prefix |
| `AutopilotRecords.FinalizationFollowsPlan` | src/algotrader/development_autopilot.py:2468-2670 | on the record of a run the finalization packet is ready exactly when the plan is promising, carries the plan's files, and its later no-files, empty-message, unknown-remote and network branches are unreachable |
| `AutopilotRecords.ReadyScriptReadsBack` | src/algotrader/development_autopilot.py:2696-2720 | the script of a ready packet gives the shell the packet's own files and message exactly when they hold no typographic quotes |
| `AutopilotRecords.ReviewTells` | src/algotrader/development_autopilot.py:2277-2309 | the review status follows the reason the run gave: ready or no changes for a plan, blocked by verification, by the file policy or by the remote for their reasons, and blocked by safety for every other |
| `AutopilotRecords.ReasonTells` | src/algotrader/development_autopilot.py:2277-2309 | where a plan has no status of its own, a review is blocked by verification or by the file policy exactly for their reasons, and else by safety |
| `AutopilotRecords.RecommendationTells` | src/algotrader/development_autopilot.py:2311-2338 | acceptance is recommended only for changes that are ready, a note for none, repair for what verification or the remote blocks, rejection for the rest, and the hard gate follows the status |
| `AutopilotRecords.ReviewCarries` | src/algotrader/development_autopilot.py:2138-2275 | a review carries files, message and push only when it is ready, and then those of the plan and the order |
| `AutopilotRecords.NoReview` | src/algotrader/development_autopilot.py:2138-2180 | a run that does not plan has no review: nothing is asked for, recommended or carried, and the hard gate is the blocked push's or that of a stop for safety |
| `AutopilotRecords.FinalizationTells` | src/algotrader/development_autopilot.py:2510-2640 | a ready review gives a ready packet unless it has nothing to stage, no message, an unknown remote or an unauthorized network push, in this order; any other review gives the packet's name for why not |
| `AutopilotRecords.FinalizationCarries` | src/algotrader/development_autopilot.py:2468-2694 | a packet that is not ready carries no files, message, push or script |
| `AutopilotRecords.VerificationTells` | src/algotrader/development_autopilot.py:2340-2379 | the review reports a timeout if there was one, else a failure if that ended the run, else what became of the full suite |
| `AutopilotRecords.UnexpectedTells` | src/algotrader/development_autopilot.py:1826-1839 | the review names as unexpected exactly the changed files that are forbidden or outside the allowlist, in normal form |
| `AutopilotGates.UpToTimeoutMeans` | src/algotrader/development_autopilot.py:1607-1663 | what a stage records is its results in order, all of them unless the last one recorded timed out, and no other one did |
| `AutopilotGates.ModeMeans` | src/algotrader/development_autopilot.py:1171-1190 | the effective mode is the one the work order asks for, and the command line's where it asks for none |
| `AutopilotGates.ChangedMeans` | src/algotrader/development_autopilot.py:245-288 | the changed files are the paths of exactly the status entries that are no untracked review notes |
| `AutopilotGates.DispatchBlockMeans` | src/algotrader/development_autopilot.py:1146-1168 | dispatch is blocked exactly off `main`, with something staged, or, unless the run only plans, with tracked changes or untracked files that are no notes, in this order |
| `AutopilotGates.PermissionMeans` | src/algotrader/development_autopilot.py:1193-1205 | a mode is permitted exactly when the order allows it, planning needs both commit and push, and pushing needs commit too |
| `AutopilotGates.FastPathMeans` | src/algotrader/development_autopilot.py:1754-1804 | the full suite is skipped exactly when policy and order allow it, the run changes nothing in git, every stage has something to run, and only notes lie around |
| `AutopilotGates.PushBlockerMeans` | src/algotrader/development_autopilot.py:2997-3024 | a push is blocked exactly for an unknown remote, or a network remote without authorization |
| `AutopilotGates.VerificationPlanMeans` | src/algotrader/development_autopilot.py:1572-1604 | every stage has its default command, and an overriding list gives its last to the full suite, the one before to the offline check and the rest to the guards |
| `DevelopmentAutopilot.RunVerificationCommands` | src/algotrader/development_autopilot.py:1607-1663 | commands run in order up to a timeout, and the stage reports neither timeout nor failure if and only if every command ran and exited 0 |
| `AutopilotWorld.PlanCoversOverride` | src/algotrader/development_autopilot.py:1572-1604 | an overriding command list is run exactly once, in order, across the three stages |
| `DevelopmentAutopilot.LoadWorkOrder` | src/algotrader/development_autopilot.py:1283-1354 | a work order is used if and only if there is exactly one and it is valid: an allowlist, paths that validate, commands without blank parts, message and head non-blank, verify-only allowed; otherwise it is rejected with its reason, and the check raises exactly when neither path list has a blank entry and the first faulty path has no component |
| `DevelopmentAutopilot.CheckBeforeDispatch` | src/algotrader/development_autopilot.py:318-581 | the checks before dispatch end the run at the first that fails, with its outcome and reason, and let it go on exactly when all hold: options, work order, head, branch and index, permission of the mode, environment |
| `DevelopmentAutopilot.RunAgent` | src/algotrader/development_autopilot.py:582-669 | the run goes on if and only if it only plans, or a builder route is available, the agent exited 0 and its changes pass the policy; otherwise it ends at the first of these that fails |
| `DevelopmentAutopilot.RunVerification` | src/algotrader/development_autopilot.py:684-843 | the run goes on if and only if every command of the three configured stages exited 0 and the files changed since pass the policy, and the record then holds every result; otherwise it ends for the first stage with a timeout or failure, a timeout before a failure, or over the files |
| `DevelopmentAutopilot.RunFullPytest` | src/algotrader/development_autopilot.py:845-941 | the run goes on if and only if the full suite is skipped or not configured, or exited 0 with the files changed since inside the policy; otherwise it ends with the reason of the first that fails |
| `DevelopmentAutopilot.PlanGitMutation` | src/algotrader/development_autopilot.py:1862-1927 | a plan promises to stage and push exactly when there are changes, nothing is staged and the remote is local or authorized; it promises exactly the changed files and touches nothing; its status names the remote, or why it is blocked |
| `DevelopmentAutopilot.CheckBeforeMutation` | src/algotrader/development_autopilot.py:1950-1985 | the checks pass exactly when there are changes, nothing is staged, the baseline matches and a push is not blocked, and name the first that fails |
| `DevelopmentAutopilot.PerformGitMutation` | src/algotrader/development_autopilot.py:1950-2027 | git is asked for each of stage, commit and push exactly when every check and command before it went well; the run ends at the first that fails, and the record's flags and lists are git's |
| `DevelopmentAutopilot.PassGates` | src/algotrader/development_autopilot.py:318-941 | a run reaches its report, plan or mutation if and only if every gate holds, and otherwise ends at the first that does not; the record then holds what it was opened with and every verification result |
| `DevelopmentAutopilot.RunPhases` | src/algotrader/development_autopilot.py:318-1021 | whatever agent, git and commands do, a run ends where its list of checks ends, with that outcome and reason, and asks git for exactly the commands whose checks hold |
| `DevelopmentAutopilot.RunDevelopmentAutopilot` | src/algotrader/development_autopilot.py:318-1021 | over every world: the run ends with the outcome and reason of the first check that fails and is accepted exactly when all hold, and then git was asked for exactly the stage, commit and push its mode asks; a push implies a commit and a commit a staging, all after every gate, with nothing pre-staged and HEAD and origin/main at the expected head; the fast path never reaches git; whatever becomes of it, the record holds what the run was opened with, every command result up to the first timeout, and what became of suite, policy and remote; both packets follow it; the packet is ready exactly for an accepted plan with files |
| `LifecycleBindings.BoundNamesAgree` | src/algotrader/core/crypto_bounded_probe_lifecycle.py:350-362 | documents that pass the binding checks agree on symbol and policy, so the later binding check on them cannot fail |
| `LifecycleDocuments.DigestMeans` | src/algotrader/core/crypto_bounded_probe_lifecycle.py:671-678 | a field gives a digest if and only if it shows 64 hexadecimal characters in either case with only whitespace around them, and the digest is these in lower case |
| `LifecycleDocuments.BindingsMeans` | src/algotrader/core/crypto_bounded_probe_lifecycle.py:394-527 | the checks on the four documents find exactly the first fault of: a configured and matched account; a candidate whose fingerprint is the hash of the rest; a terminal closed by the plan's time; a venue observed within 24 hours before it, with eight digests and a symbol orderable from at most ten dollars; a safety certified within 168 hours before it |
| `LifecyclePlan.BuiltPlanError` | src/algotrader/core/crypto_bounded_probe_lifecycle.py:231-282 | the validator finds in a plan made as the builder makes it, with any numbers Python calls equal, exactly the first fault of its documents; fingerprint, window, ids and authorization never fail |
| `LifecyclePlan.BuildFailsOnInputsOnly` | src/algotrader/core/crypto_bounded_probe_lifecycle.py:231-282 | the builder succeeds if and only if symbol and time are readable, the entry window ends before the calendar does, and the documents pass |
| `LifecyclePlan.LastQuarterHourHasNoPlan` | src/algotrader/core/crypto_bounded_probe_lifecycle.py:366-371 | at a time whose entry window would end after the last instant the builder raises whatever its documents, and no ready plan is accepted |
| `LifecyclePlan.CanonicalNumbersAreTheBuilders` | src/algotrader/core/crypto_bounded_probe_lifecycle.py:298-305 | of the hours, budgets and authority flags that compare equal to the builder's, those spelled as integers and booleans are the builder's |
| `LifecyclePlan.AcceptedTextsExactly` | src/algotrader/core/crypto_bounded_probe_lifecycle.py:294-391 | a ready plan with canonical times and digests is accepted if and only if it is made as the builder makes it from its own symbol, time, passing documents and numbers, the entry window ends within the calendar, and those numbers compare equal to the builder's |
| `LifecyclePlan.OneCanonicalForm` | src/algotrader/core/crypto_bounded_probe_lifecycle.py:294-391 | a ready plan is accepted with canonical times, digests, numbers and flags if and only if it is what the builder makes of its symbol, documents and time |
| `LifecyclePlan.AcceptedHasCanonicalForm` | src/algotrader/core/crypto_bounded_probe_lifecycle.py:294-391 | every accepted ready plan, however spelled, has a built plan with the same documents, instants, fixed parts and, up to spelling, numbers |
| `LifecyclePlan.IdentityNamesOnePlan` | src/algotrader/core/crypto_bounded_probe_lifecycle.py:530-546 | two accepted ready plans with the same identity fingerprint say the same up to spelling, have the same ids, and are equal when canonically spelled, unless the hash collides on them |
| `LifecyclePlan.LooseNumbersAccepted` | src/algotrader/core/crypto_bounded_probe_lifecycle.py:324-325 | every way to spell the numbers or flags that Python calls equal gives a plan that is accepted, has canonical times and digests, says the same as the builder's and is not the builder's |
| `LifecyclePlan.FloatHoursAccepted` | src/algotrader/core/crypto_bounded_probe_lifecycle.py:362-363 | for every plan the builder makes, the one that spells its hours 168.0 is accepted and different |
| `LifecyclePlan.ZeroAuthoritySharesIdentity` | src/algotrader/core/crypto_bounded_probe_lifecycle.py:530-546 | for every plan the builder makes, the one that spells its authority flags 0 is accepted, different, and has the same identity fingerprint |
| `LifecyclePlan.PaddedFingerprintAccepted` | src/algotrader/core/crypto_bounded_probe_lifecycle.py:671-678 | the validator also accepts digests with outer whitespace, a spelling the builder never makes |
| `LifecyclePlan.AcceptedDormantExactly` | src/algotrader/core/crypto_bounded_probe_lifecycle.py:314-336 | a dormant plan with a canonical time and fingerprint is accepted if and only if it is the dormant plan of its time with its own numbers, which compare equal to the builder's |
| `LifecyclePlan.DormantForm` | src/algotrader/core/crypto_bounded_probe_lifecycle.py:202-228 | a dormant plan is accepted and canonically spelled, numbers and flags included, if and only if it is the builder's for its time |
| `LifecyclePlan.ReadyPlanExists` | src/algotrader/core/crypto_bounded_probe_lifecycle.py:231-282 | for every symbol and every instant with an entry window some ready plan is accepted and canonically spelled, so what is proved of accepted plans is about something |
| `LifecyclePlan.SaneIsPossible` | src/algotrader/core/crypto_bounded_probe_lifecycle.py:600-608 | a clock and hashes exist that meet what the plan results assume of them |
| `LifecyclePlan.PlanIdsAtTheGate` | src/algotrader/core/crypto_bounded_probe_lifecycle.py:549-564 | the entry id of an accepted plan passes the order gate only as its ten-dollar buy, the exit id only as its sale of a quantity, the cancel id never |
| `LifecycleAcceptance.PlanMeans` | src/algotrader/core/crypto_bounded_probe_lifecycle.py:294-391 | every answer of the validator is the first of a list of requirements on the plan's own fields that does not hold, and acceptance means that all of them do |
| `LifecycleAcceptance.AcceptedDocuments` | src/algotrader/core/crypto_bounded_probe_lifecycle.py:294-527 | an accepted ready plan is bound to a configured and matched account, a terminal closed by its time, a venue observed in the day before it and a safety certified in the week before it |
| `LifecycleAcceptance.BuildAnswers` | src/algotrader/core/crypto_bounded_probe_lifecycle.py:231-282 | the builder makes a plan with the builder's fields if and only if the symbol is one of the three, the time is readable with its window inside the calendar, and the documents stand; otherwise the first of these that fails is the error |
| `LifecycleBindings.DigestIsItself` | src/algotrader/core/crypto_bounded_probe_lifecycle.py:671-678 | a lower-case digest is its own normal form |
| `OrderGate.AcceptedIsSound` | src/algotrader/execution/alpaca_client.py:132-288 | a case check that later results build on: every accepted request has exactly one positive amount, a limit price exactly for limits, a permitted time in force, and sells only crypto probe symbols or SPY by quantity |
| `OrderGate.ConstructIdempotent` | src/algotrader/execution/alpaca_client.py:274-288 | writing an accepted request out and constructing it again changes nothing |
| `OrderGate.PrefixedAcceptance` | src/algotrader/execution/alpaca_client.py:223-230 | under the probe prefix the constructor accepts exactly the probe shape with positive amounts |
| `OrderGate.DerivedIdNamesItself` | src/algotrader/execution/alpaca_client.py:348-366 | a derived id matches the id pattern of its own symbol and side and of no other |
| `OrderGate.EntryIdAccepted` | src/algotrader/execution/alpaca_client.py:183-230 | the derived entry id is accepted if and only if the order is its symbol's market gtc buy of ten dollars with no quantity or limit |
| `OrderGate.ExitIdAccepted` | src/algotrader/execution/alpaca_client.py:183-230 | the derived exit id is accepted if and only if the order is its symbol's market gtc sale of a positive quantity |
| `OrderGate.CancelIdRefused` | src/algotrader/execution/alpaca_client.py:223-230 | the derived cancel id is never accepted |
| `OrderGate.OnlyTwoProbeShapes` | src/algotrader/execution/alpaca_client.py:183-230 | every accepted request under the prefix is the entry or the exit of one symbol under an id of derived form |
| `OrderAnswers.ConstructMeans` | src/algotrader/execution/alpaca_client.py:132-288 | every answer of the constructor: the first requirement the raw request fails, in terms of its words, ids and amounts, or the request with exactly the fields and words it was given |
| `SubmitAdapter.Adapter.Submit` | src/algotrader/execution/alpaca_adapter.py:143-169 | marks the id as seen before calling the client and changes the fields exactly as the specification step |
| `SubmitAdapter.Adapter.Propose` | src/algotrader/execution/alpaca_adapter.py:121-141 | builds the request under the given or the next generated id, using the number up even when the request is refused |
| `SubmitAdapter.RunIsSafe` | src/algotrader/execution/alpaca_adapter.py:121-169 | over every sequence of calls and client answers no client order id is sent twice, and each was sent with an approving verdict, or without one only where none is required |
| `SubmitAdapter.OrderGateKeepsIds` | src/algotrader/execution/alpaca_client.py:132-288 | the request constructor keeps the client order id, which is what the safety of runs asks of a gate |
| `SubmitAdapter.GeneratedIdIsFresh` | src/algotrader/execution/alpaca_adapter.py:171-188 | a generated id is refused as a duplicate only if some earlier call chose exactly that id |
| `SubmitAdapter.ProposedOrdersAvoidProbeIds` | src/algotrader/execution/alpaca_adapter.py:171-183 | no order that `submit_order` builds and sends carries a bounded-probe id |
| `SubmitAdapter.BuiltMeans` | src/algotrader/execution/alpaca_adapter.py:171-183 | the request of a proposed order has the order's own side, symbol, quantity, type and limit price, as an equity order for the day; the only sales and limits let through are SPY's under its special ids |
| `SubmitAdapter.SubmitOrderMeans` | src/algotrader/execution/alpaca_adapter.py:121-183 | a proposal is blocked without approval, refused for the order's own fault, a duplicate, or sent once as exactly the request the order asks for, under the given or the next generated id |
| `CsvText.WrittenReadsBack` | src/algotrader/execution/crypto_bars_intake.py:459-483 | rows written with minimal quoting read back record by record when no field breaks a line outside quotes; inside quotes only the breaks are lost |
| `CsvText.BrokenTable` | src/algotrader/execution/crypto_bars_intake.py:370-391 | a row whose last two fields hold an unquoted break reads back with a record of one or two fields after the header |
| `FixedPoint.FixedReadsBack` | src/algotrader/execution/crypto_bars_intake.py:674-675 | printing a decimal with format f and reading it back keeps its value and its text for every exponent, and the decimal itself when the exponent is not positive |
| `FixedPoint.SplitDigitsSpell` | src/algotrader/execution/crypto_bars_intake.py:674-675 | the digits printed before and after the point, leading zeros included, spell the coefficient |
| `CryptoBars.ReadBarsAreGood` | src/algotrader/execution/crypto_bars_intake.py:394-436 | every bar read from a row has the symbol, positive prices, bounding high and low, and values that print and read back |
| `CryptoRows.ColumnMeans` | src/algotrader/execution/crypto_bars_intake.py:550-555 | a key names a column if and only if, trimmed and in lower case, it is one of the column's spellings |
| `CryptoRows.FirstTextMeans` | src/algotrader/execution/crypto_bars_intake.py:550-555 | a row's text for a column is that of its first cell under the column, trimmed, and empty without one |
| `CryptoRows.NormalizeMeans` | src/algotrader/signals/crypto_trend.py:253-268 | what is left of a symbol is its upper-cased, trimmed text without slashes, hyphens, underscores and spaces |
| `CryptoRows.BarMeans` | src/algotrader/execution/crypto_bars_intake.py:394-436 | a row is a bar if and only if it has no fault, the first of which is the error otherwise: its symbol is blank or BTCUSD, its class blank or crypto, every price of its own column positive, the volume not negative, low and high enclosing open and close, and a time with a zone; the bar then says what those cells say |
| `CryptoRows.ParseMeans` | src/algotrader/execution/crypto_bars_intake.py:370-391 | a CSV parses to the bars its records say, one for one, or names every fault of its records once |
| `CryptoRows.ParseIff` | src/algotrader/execution/crypto_bars_intake.py:370-391 | a CSV parses to these bars if and only if its records say them |
| `CryptoRows.ItemsMean` | src/algotrader/execution/crypto_bars_intake.py:339-345 | JSON items are bars one for one, or the first fault among them is reported alone |
| `CryptoRows.OutcomeMeans` | src/algotrader/execution/crypto_bars_intake.py:206-269 | every outcome for parsed bars by the bars themselves, in whatever order: none, repeated times, one after the observation, none recent, too few, or accepted in ascending order |
| `CryptoRows.IntakeIff` | src/algotrader/execution/crypto_bars_intake.py:165-269 | an intake is accepted with these rows if and only if its text says the same bars, they ascend strictly, none is after the observation, one is recent, and there are enough |
| `CryptoBars.ValidationBlockers` | src/algotrader/execution/crypto_bars_intake.py:439-456 | the two loops report exactly the specified blockers |
| `CryptoBars.BlockersOfNamed` | src/algotrader/execution/crypto_bars_intake.py:439-456 | for parsed bars there is no blocker when timestamps are distinct, and otherwise the duplicate and the adjacency blocker together |
| `CryptoBars.CurrentMeans` | src/algotrader/execution/asset_freshness_policy.py:170-202 | freshness holds if and only if 0 <= observed - latest < (whole seconds of the maximum + 1) seconds |
| `CryptoBars.ClassifyForgetsOrder` | src/algotrader/execution/crypto_bars_intake.py:206-269 | outcome and canonical rows depend only on the multiset of bars |
| `CryptoBars.AcceptedMeans` | src/algotrader/execution/crypto_bars_intake.py:206-269 | acceptance means the same bars in strictly increasing time, all usable, at least the required number, the latest within the age limit |
| `CryptoBars.ClassifyBars` | src/algotrader/execution/crypto_bars_intake.py:206-269 | the staging after parsing computes the specified outcome |
| `CryptoBarsIntake.ParseCsvText` | src/algotrader/execution/crypto_bars_intake.py:370-391 | the row loop yields the bars in order, or the deduplicated blockers of every bad row |
| `CryptoBarsIntake.WriteCanonicalCsv` | src/algotrader/execution/crypto_bars_intake.py:459-483 | the writer loop produces the canonical text of the bars |
| `CryptoBarsIntake.BuildIntake` | src/algotrader/execution/crypto_bars_intake.py:165-269 | one intake computes the specified outcome and writes the canonical text exactly when it accepts |
| `CryptoBarsIntake.IntakeForgetsOrder` | src/algotrader/execution/crypto_bars_intake.py:165-269 | two inputs that parse to the same multiset of bars are treated alike |
| `CryptoBarsIntake.IntakeFixpoint` | src/algotrader/execution/crypto_bars_intake.py:459-483 | taking the canonical CSV in again gives the same accepted rows if and only if neither basis nor source holds a line-break character the writer leaves unquoted; otherwise the intake of its own output is invalid |
| `CryptoBarsIntake.FaithfulIsPossible` | src/algotrader/execution/crypto_bars_intake.py:579-587 | a codec exists that meets what the intake results assume of one |
| `CryptoBarsIntake.LineSeparatorIsUnsafe` | src/algotrader/execution/crypto_bars_intake.py:648-651 | a basis with U+2028 inside passes the configuration and falls in the failing case |
| `TestSharding.ParseNodeids` | scripts/run_full_pytest_sharded.py:241-268 | a collection's output parses if and only if it names at least one node id and none twice after normalizing file parts, which is what the equivalence result asks of the collection |
| `TestSharding.NormalizeMeans` | scripts/run_full_pytest_sharded.py:263-268 | normalizing a node id turns backslashes before its first two colons into slashes and changes nothing else |
| `TestSharding.NodeidMeans` | scripts/run_full_pytest_sharded.py:245-249 | a line names a test if and only if it begins with tests/ and has two colons in a row |
| `TestSharding.PartitionNodeids` | scripts/run_full_pytest_sharded.py:271-284 | fails exactly for a shard count outside 1..16 or an empty collection; else deals the sorted ids round-robin into non-empty sorted shards whose sizes differ by at most one and whose union, with multiplicity, is the input |
| `TestSharding.Deal` | scripts/run_full_pytest_sharded.py:281-284 | the dealing loop puts sorted position j * n + k at position j of shard k |
| `TestSharding.PartitionErrors` | scripts/run_full_pytest_sharded.py:287-303 | reports nothing if and only if the shards hold exactly the canonical ids, each once; else names the missing, the surplus and the repeated ones |
| `TestSharding.SurplusCounts` | scripts/run_full_pytest_sharded.py:294-296 | the listed surplus holds each id as often as the counter difference does |
| `TestSharding.SampleMeans` | scripts/run_full_pytest_sharded.py:287-303 | an error names the first five ids in order, or all there are |
| `TestSharding.LocalCheckIsExact` | scripts/run_full_pytest_sharded.py:530-538 | for a shard without duplicates comparing sets and lengths is comparing multisets |
| `TestSharding.LocalChecksSuffice` | scripts/run_full_pytest_sharded.py:530-545 | if every recollected shard passes the local check, the global check passes |
| `TestSharding.CheckEquivalence` | scripts/run_full_pytest_sharded.py:489-545 | the in-memory and the global check never fail; the shards are the fair round-robin ones; the run gets through if and only if every shard collects again what it was assigned, and otherwise names exactly the shards that failed to collect, or the first that collects something else |
| `TestSharding.ExecutionTotalFollows` | scripts/run_full_pytest_sharded.py:589-617 | when every shard ran what it was assigned the total is the collection, so the last execution check cannot fail |
| `NextPlan.ClassifyIsSound` | src/algotrader/execution/autonomy_next_plan.py:242-289 | a finite check over the tokens: every entry of the classification table, and the fallback, satisfies the class checks, so classification never raises |
| `NextPlan.ClassifyIsExact` | src/algotrader/execution/autonomy_next_plan.py:338-573 | a finite check over the tokens, which the results on plans use: exactly the two readiness tokens are auto-offline, the two daily-cycle tokens take operator input and one token is network |
| `NextPlan.BucketLanes` | src/algotrader/execution/autonomy_next_plan.py:172-189 | the loop fills each bucket with the lanes of its classes in plan order |
| `NextPlan.BucketsPartition` | src/algotrader/execution/autonomy_next_plan.py:158-189 | the four buckets together hold every planned lane exactly as often as the plan |
| `NextPlan.MostSevereAction` | src/algotrader/execution/autonomy_next_plan.py:940-953 | for any order of severity, repeated or missing states included, the nested search finds the lexicographic minimum of (severity, position) among matching actions with a listed state, and nothing exactly when there is none |
| `NextPlan.HighestPriorityAction` | src/algotrader/execution/autonomy_next_plan.py:945-953 | with the source's order, which lists every state, the nested search finds the lexicographic minimum of (severity, position) among matching actions, and nothing exactly when none matches |
| `NextPlan.BuildNextPlan` | src/algotrader/execution/autonomy_next_plan.py:638-729 | the next offline action is the highest auto-offline one if any, else the highest runnable one; a plan class that promises an action has one, and all-nominal means all no-ops |
| `NextPlan.PlanDeterminesReport` | src/algotrader/execution/autonomy_next_plan.py:638-729 | a report, with its header and texts, has one plan and a plan comes from one report |
| `NextPlan.RegistryTokens` | src/algotrader/execution/autonomy_supervisor.py:271-437 | in the registry only the readiness lane can be auto-offline and only the daily-cycle lane can take operator input |
| `SupervisorPlans.TokensTellApart` | src/algotrader/execution/autonomy_supervisor.py:271-437 | the registry's token of a lane and state determines the lane, and the state up to attention and unknown in four lanes |
| `SupervisorPlans.StatesAskFor` | src/algotrader/execution/autonomy_supervisor.py:271-437 | nothing is done for exactly the nominal and waiting states; only readiness can be seeded offline, only the daily cycle with operator inputs, only an absent soak over the network |
| `SupervisorPlans.GatesTellWhy` | src/algotrader/execution/autonomy_next_plan.py:338-573 | a lane waits for a review exactly when it is blocked, unknown or, forward shadow apart, needs attention, and for want of an offline command exactly in three lanes that are absent or stale |
| `SupervisorPlans.OtherGatesTellWhy` | src/algotrader/execution/autonomy_next_plan.py:338-573 | a lane waits for the network exactly when the soak is absent or forward shadow needs attention, and for the scheduler exactly when the soak is stale |
| `SupervisorPlans.CommandsFollow` | src/algotrader/execution/autonomy_next_plan.py:338-573 | each class of action has its one command, and only the daily cycle needs inputs, its clock and its bars |
| `SupervisorPlans.OutsideTheRegistry` | src/algotrader/execution/autonomy_next_plan.py:558-573 | a token outside the registry is left to the operator |
| `SupervisorPlans.ClassErrorMeans` | src/algotrader/execution/autonomy_next_plan.py:242-289 | which classes of action the constructor lets exist, per execution class |
| `SupervisorPlans.ReportMeans` | src/algotrader/execution/autonomy_next_plan.py:875-925 | a report is refused for the first of: not exactly one readiness lane, an unusable token there, another token than the registry's, an unusable token anywhere |
| `SupervisorPlans.SupervisorPlanMeans` | src/algotrader/execution/autonomy_next_plan.py:638-729 | on the supervisor's own report the plan is all nominal or waiting if and only if every lane is, an offline action is available if and only if readiness or the daily cycle is absent or stale, readiness first, and the network is next if and only if the soak is absent and nothing offline is |
| `OfflineExecutor.PartitionActions` | src/algotrader/execution/autonomy_offline_executor.py:557-620 | every action ends up eligible or skipped, as the branches decide, in plan order |
| `OfflineExecutor.PlannedDecision` | src/algotrader/execution/autonomy_offline_executor.py:565-619 | a classified action runs if and only if it is auto-offline, or runnable with inputs bound, and with the argv of its token; `not_allowlisted` is unreachable |
| `OfflineExecutor.DecisionMeans` | src/algotrader/execution/autonomy_offline_executor.py:565-619 | for any action, classified or not, which of the three reasons it is skipped for, or which argv it runs with |
| `OfflineExecutor.DailyCycleMeans` | src/algotrader/execution/autonomy_offline_executor.py:727-739 | the daily-cycle argv passes the operator's clock and bars and the four canonical output paths, each under its own flag, and nothing else |
| `OfflineExecutor.TargetMeans` | src/algotrader/execution/autonomy_offline_executor.py:426-529 | a report may be acted on if and only if it has one daily-cycle lane with the registry's token, and no lane that asks for the replay precedes readiness when readiness asks for it |
| `OfflineExecutor.CheckSupplied` | src/algotrader/execution/autonomy_offline_executor.py:215-225 | a supplied plan or report is refused for the first of: no plan, a target that may not be acted on, or a difference from the current report |
| `OfflineExecutor.EligibleAreTheUnlocked` | src/algotrader/execution/autonomy_offline_executor.py:557-620 | the eligible list is exactly the unlocked actions of the plan, once each, in order |
| `OfflineExecutor.EligibleIsUnlocked` | src/algotrader/execution/autonomy_offline_executor.py:557-620 | each eligible action is an unlocked action of the plan bound to its token's argv |
| `OfflineExecutor.SkippedIsLocked` | src/algotrader/execution/autonomy_offline_executor.py:557-620 | each skipped action is a locked action of the plan, never for the allowlist reason |
| `OfflineExecutor.ArgvExecutes` | src/algotrader/execution/autonomy_offline_executor.py:623-655 | re-deriving the argv agrees for every action bound to its token's argv, so execution does not raise |
| `OfflineExecutor.ExecuteMeans` | src/algotrader/execution/autonomy_offline_executor.py:623-655 | an execution raises exactly for a token that has no argv, one whose inputs are not there, or another argv than its token's |
| `OfflineExecutor.SupervisorPlanIsAccepted` | src/algotrader/execution/autonomy_offline_executor.py:426-529 | on a plan of the supervisor's own report the readiness action, when runnable, is the one selected, and both canonical bindings hold |
| `OfflineExecutor.BuildLedger` | src/algotrader/execution/autonomy_offline_executor.py:190-314 | a ledger is returned if and only if the current report is actionable and what the caller supplied, if anything, is its plan, header and copied texts included, or the same report; on the supervisor's own reports nothing else raises; otherwise the error is that of the first check that fails; every ledger is that of the freshly derived plan, runs exactly the eligible argvs when applied after a passing preflight, and reports success as None exactly when nothing ran |

## Left out

- Files and processes: lock acquisition and time-outs, fsync, torn writes, subprocesses, git itself, HTTP, the broker SDK.
- Path resolution, symlink and git-marker checks of planner and executor, and the credential preflight, whose result is a parameter.
- JSON text: records stand for decoded objects, and a line or document with other keys is one constructor. Byte decoding of the bars input is a constructor too.
- `Decimal` rounding to 28 digits, and the float rounding of `total_seconds` beyond 285 years.
- SHA-256, `isoformat`, and the reading of timestamps and of decimal texts with exponents: parameters with stated properties.
- The network executor before its lock: argument checks, the session calendar, the already-qualified early return and the dry run.
- The autopilot's artifact files, reports, capture files, remote URL classification (its result is an oracle), credential scanner and prompt checks; its second look at the environment repeats the first; its safety flags are never set.
- The body of the generated PowerShell script apart from the three places that carry data.
- The router, evaluators and rows behind the shadow replay: a row carries its postures and flags. Window dates and rendered payloads.
- Reasons and detail texts of row, plan and order errors are enumerations, without row numbers and field names.
- The parameter objects and unchecked fields of lifecycle documents are single opaque fields.
- `SubmitAdapter`: response translation, and the read-only calls.
- Concurrency of shard collection: results are taken by index. JUnit parsing.
- Generation replay certification, cancellation reconciliation, advisory snapshots and board summaries: per-field validation.
- The CSV reader's field size limit and the JSON branch of the intake before its items are unpacked.
- Sequences in Python are stable-sorted in place of `Sorting.Sort`, which is an insertion sort with the same result.
- OrderGate.AcceptedIsSound: does not model signalling NaN amounts, which raise earlier in the source.
- DevelopmentAutopilot.RunDevelopmentAutopilot: the commands' time-outs are outcomes of the oracle, not clock readings.
- PowerShellQuoting.DoubleQuotedReadsBackIff: the reader has no variable expansion; an unescaped dollar sign reads as nothing.
- DevelopmentAutopilot.LoadWorkOrder: does not model the schema checks on fields a `WorkOrder` does not have; failing one is the single outcome `Invalid`, also when a path would have made the check raise first.
- OfflineExecutor.BuildLedger: does not model supplied plans that Python calls equal to the canonical one in another spelling (1 for `true`); they pass the comparison, and it is the canonical plan that runs.
- JSON's extensions in Python, NaN and the infinities, are no `JsonValue.Value`. A verdict holding NaN would differ from itself; the interlock writes none.
