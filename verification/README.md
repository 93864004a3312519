# Verified model of a trading operations repository

A Dafny model of the parts of the repository whose behaviour is easiest to get wrong: a hand-written
YAML printer and parser that must undo each other, a paper-trading simulator, the algebra of configuration
trees, the broker rate limiter, the autonomy stage guard, the order log and the lifecycle that writes it, the
event bus, the health and gate guardrails, and the code that splits time into segments and counts days and jobs.

Loops that update variables, and objects that update their fields, are methods and classes here. Each is proved
equal to a specification function (`Sim`, `Ledger`, `Guard`, `Trace` and `Health` are the states of such
functions), and the main results are lemmas about that function: over every text, every tree, every log, or
every run. `dafny verify dfyconfig.toml` checks everything.

| files | what they hold |
|---|---|
| `Values.dfy`, `PyText.dfy` | configuration trees as ordered dictionaries and shared helpers; the string operations and literals the YAML code uses |
| `YamlReader.dfy`, `YamlWriter.dfy` | parser and printer |
| `YamlPrinted.dfy`, `YamlRoundTrip.dfy`, `YamlForms.dfy` | what one printed line keeps, what a printed dictionary reads back as, and what every other form is read as |
| `YamlKeys.dfy`, `YamlHashes.dfy`, `YamlEqual.dfy`, `YamlExact.dfy` | what every loaded document satisfies, what a cut comment costs, what equality up to order keeps, and the exact domain of the round trip |
| `ConfigDiff.dfy`, `ConfigTree.dfy` | flatten, diff, patch and summary; when flattening loses nothing; deep merge |
| `Paper.dfy`, `PaperSimulator.dfy`, `PaperInvariants.dfy`, `PaperEntries.dfy`, `PaperAttempts.dfy`, `PaperExits.dfy`, `PaperLossFloor.dfy`, `PaperRaise.dfy` | the simulator as a state machine, its loops as a class, exposure and conservation, where positions come from and how they leave, the loss floor, division by zero |
| `Payload.dfy` | truth, text and lookup of the values records are written with |
| `RateLimit.dfy`, `StageGuard.dfy`, `OrderLog.dfy`, `OrderLifecycle.dfy`, `EventBus.dfy`, `Guardrails.dfy`, `Gate.dfy` | one component each |
| `WalkForward.dfy`, `Backfill.dfy`, `HealthStore.dfy`, `Resync.dfy` | tiling, counting and job accounting |

## What turned out differently than it reads

* **YAML.** A string is printed with JSON escapes and read back without unescaping, an empty dictionary prints as
  `{}` and is refused, a non-empty container in a list prints as a bare `-` that no branch accepts, and a list
  string with a colon comes back as a mapping. `RoundTripExactly` says, over all dictionaries, which ones survive.
  `EmptyItemUnreachable` shows that the empty-item branch of the list parser is dead. A block scalar loses as many
  characters of each line as it is indented (`BlockClips`), and an empty one swallows the keys beside it
  (`EmptyBlockSwallows`).
* **Exposure caps.** The caps measure open risk against starting equity, since `equity` is a default argument
  bound once. Without fixed-risk sizing a position adds no more than was checked exactly when equity has not grown
  (`MeasuredRisk`), an admission breaks a cap exactly as `AdmissionBreaksIff` says, `GrownCaps` bounds by how much over
  whole runs, and `GrownRunBreaksCap` is a run of two bars that ends above its cap.
* **Division by zero.** The correlation check divides by the current equity. `RunRaisesIff` says exactly which runs end
  there: those in which an attempt that no cap refuses first finds equity gone and a correlated position open. No run
  does whose equity is never zero after a bar (`SolventNeverRaises`), and `WarmRunRaises` gives runs that do, with enough
  returns for correlations to exist.
* **Equity floor.** A loss is bounded by what was risked as long as risk is sized on the starting equity, the option that
  is off by default, or equity is not negative (`EquityFloor`); a position won in debt costs money (`DebtBreaksFloor`).
* **Rate limiter.** The refill mark moves only after the reset time, so elapsed time is credited again on every call.
  With a burst, the textbook bound holds exactly when `reset_sec <= 0` or nothing is sustained (`TextbookIff`), and
  otherwise any number of requests is granted within half a second (`Unbounded`).
* **Stage guard.** A recovery is not tied to a rollback: it undoes one exactly when the rollback moved
  (`RecoverUndoesRollback`). The promotion and demotion checks look at different things (`EligibleYetDemoted`).
* **Order log.** `list` and `load` can disagree about a record without an `order_id` (`ListAgreesIff`,
  `MissingIdIsUnlisted`). One record that cannot be read makes `list` raise for every order, and `load` for its own
  (`ListRaisesIff`, `LoadIsLastRecord`), so such an order can no longer be updated, while its creation still writes.
* **Health.** A failed event write skips the status merge; the invariant then breaks exactly when the level was above
  the status (`StepDominates`, `RunDominatesIff`). **Gate.** Automatic execution can be re-armed while the spread is
  blocked or liquidity halted; `RunRespectsIff` says exactly which runs do so.
* **Configuration diff.** With non-empty dot-free keys it misses mappings that flatten to nothing and, by
  `DiffEmptyIffPrunedSame`, nothing else; a dotted key can hide a nested one (`DottedKeyCollides`), and so can an empty
  key (`EmptyKeyCollides`).
* **Walk-forward plans.** A step of zero with a test window and room for it never ends (`EndsExactly`), and a step other
  than the test window leaves gaps or overlaps (`NeighboursMeetIff`).

## Model

| member | source | states |
|---|---|---|
| YamlReader.StripComment | yaml.py:36-50 | the loop with its quote flag and result list keeps what stands before the comment, right-stripped |
| YamlReader.CutIsFirstComment | yaml.py:41-48 | a comment starts at the first `#` outside quotes that follows whitespace or nothing, and at no earlier one |
| YamlReader.Tokenise | yaml.py:53-61 | the token loop equals one optional token for each raw line, in order |
| YamlReader.TokenShape | yaml.py:56-60 | no token is empty or untrimmed |
| YamlReader.MappingFrom | yaml.py:64-102 | a mapping entered at its own indent strictly advances, and stops at the end or at a smaller indent |
| YamlReader.ListFrom | yaml.py:105-143 | the same for a list |
| YamlReader.ChildAt | yaml.py:82-88 | a nested block consumes at least its first line and stops at a smaller indent than that line's |
| YamlReader.ParseMapping | yaml.py:64-102 | the mapping loop, with its index and dictionary, computes `MappingFrom`, errors included |
| YamlReader.ReadEntry | yaml.py:67-101 | one turn of that loop: null, nested block, `\|` block or scalar, and each error |
| YamlReader.ParseList | yaml.py:105-143 | the list loop computes `ListFrom`, errors included |
| YamlReader.ReadItem | yaml.py:108-142 | one turn of that loop, with the `- key: value` mapping extended by deeper lines |
| YamlReader.SkipBlock | yaml.py:94-97 | the block-scalar loop stops at the first line of smaller indent |
| YamlReader.SafeLoad | yaml.py:16-33 | the document entry point: the JSON marker, the empty text, the top mapping, trailing content |
| YamlReader.EmptyItemUnreachable | yaml.py:119-130 | in tokenised text every `- ` line has an item, so the empty-item branch is dead |
| PyText.IntRoundTrip | tools/run_long_horizon_portfolio_validation.py:42-43 | `int(str(n)) == n` for every integer, and its text has only digits and a sign |
| PyText.SplitJoined | tools/run_long_horizon_portfolio_validation.py:97 | splitting joined lines gives the lines back when none holds a line break |
| YamlWriter.DumpLines | tools/run_long_horizon_portfolio_validation.py:47-90 | the recursive printer renders the layout of indented lines of any value |
| YamlWriter.DumpEntries | tools/run_long_horizon_portfolio_validation.py:53-69 | its loop over a mapping, entry by entry |
| YamlWriter.DumpItems | tools/run_long_horizon_portfolio_validation.py:73-89 | its loop over a list, with the bare `-` before a non-empty container |
| YamlWriter.DumpText | tools/run_long_horizon_portfolio_validation.py:93-97 | the document text, as the printer without `safe_dump` writes it |
| YamlWriter.EscapeIsIdentity | tools/run_long_horizon_portfolio_validation.py:44 | a quoted string is printed unchanged exactly when JSON has nothing to escape in it |
| YamlWriter.ContainersNest | tools/run_long_horizon_portfolio_validation.py:53-89 | a container stands under its key or a bare dash, begins two deeper, and stays there |
| YamlWriter.LinesOfText | tools/run_long_horizon_portfolio_validation.py:93-97 | what the text of a scalar entry is, to the character |
| YamlWriter.EscapeTable | tools/run_long_horizon_portfolio_validation.py:44 | how quotes, backslashes and the named control characters are escaped |
| YamlWriter.EscapeOthers | tools/run_long_horizon_portfolio_validation.py:44 | every other control character is escaped by its code in four hexadecimal digits, and nothing else is escaped |
| YamlPrinted.StringTokenRoundTrip | yaml.py:177-180 | a string scalar reads back as itself exactly when it needs no escape |
| YamlPrinted.InlineReadsBack | yaml.py:157-187 | every inline scalar or empty container reads back as itself, strings as their escaped text |
| YamlPrinted.PlainLineHasNoComment | yaml.py:36-50 | a printed line holds no comment when its hashes stand inside words or inside a quoted string |
| YamlPrinted.KeptLineToken | yaml.py:53-61 | a printed line tokenises to its own indent and content |
| YamlPrinted.DumpTokens | yaml.py:53-61 | tokenising a printed layout gives the layout back |
| YamlRoundTrip.ReadEntriesBack | yaml.py:64-102 | on printed entries followed by any shallower line the mapping parser consumes exactly the printed lines and returns their image |
| YamlRoundTrip.ReadItemsBack | yaml.py:105-143 | the same for printed list items |
| YamlRoundTrip.ReadChildBack | yaml.py:82-88 | a printed nested container is read back by the branch its first line selects, or fails when it has no image |
| YamlRoundTrip.BareDash | yaml.py:72-73 | the bare `-` line of a container in a list is refused as item and as entry |
| YamlRoundTrip.LoadOfDump | tools/run_long_horizon_portfolio_validation.py:93-97 | for readable dictionaries: what loading the printed text returns, and exactly when it fails |
| YamlRoundTrip.RoundTrip | tools/run_long_horizon_portfolio_validation.py:37-97 | a readable dictionary survives exactly when it is not empty, no string needs an escape, no list string has a colon and no list holds a non-empty container |
| YamlForms.ReadField | yaml.py:67-101 | one line of a mapping and what stands deeper under it, in every form: nothing, a token, a block, fields, list items; it is read to its meaning, and exactly its lines are consumed |
| YamlForms.ReadChild | yaml.py:82-88 | what stands deeper under a key is read to the meaning of its form |
| YamlForms.ReadFields | yaml.py:64-102 | a mapping is read to the meanings of its fields, in order |
| YamlForms.ReadRow | yaml.py:108-142 | a list item is read to its token, or to a dictionary that its own field opens and the deeper ones extend |
| YamlForms.ReadRows | yaml.py:105-143 | a list is read to the meanings of its items, in order |
| YamlForms.CollectedExact | yaml.py:134-139 | a dictionary holds for each key the last value assigned to it, in the place where the key first stood |
| YamlForms.ReadItemForm | yaml.py:134-139 | every readable dictionary laid out as a list item, its first entry after the dash and the others deeper by any step, is read to the image of all its entries in order |
| YamlForms.DeeperKeyReplaces | yaml.py:138 | a deeper line with the key of the item replaces its value, and keeps its place |
| YamlForms.LoadsFields | yaml.py:27-33 | a document of fields of any form, each child indented by any step, is read to the dictionary of their meanings |
| YamlForms.LeftOfStart | yaml.py:28-30 | a document that goes on left of where it began is refused |
| YamlForms.Refused | yaml.py:68-73 | which lines no mapping and no list accepts, and with what error |
| YamlForms.BlockClips | yaml.py:94-100 | a line of a block comes back as it was exactly when it stands at the margin or is empty; else it loses as many characters as it is indented |
| YamlForms.EmptyBlockSwallows | yaml.py:94-97 | a block without deeper lines takes the key beside it for its own text |
| YamlForms.WordsInAnyCase | yaml.py:160-166 | `null`, `true` and `false` are read in any case |
| YamlForms.EitherQuote | yaml.py:177-180 | either quote holds any text |
| YamlForms.BracketList | yaml.py:168-172 | a list in brackets is read part by part |
| YamlForms.JsonDocument | yaml.py:20-26 | after the JSON marker the rest of its line is dropped, and what follows is the payload unless it is blank |
| YamlForms.CommentAfterText | yaml.py:36-50 | a line of words and quoted texts, in either quote and with any hashes inside, loses a comment after a blank and nothing without one |
| YamlForms.BlankDocument | yaml.py:27-29 | a text of nothing but blanks and comments is null |
| YamlKeys.LoadedDocument | yaml.py:146-154 | for every text: a loaded document holds only dictionaries with distinct, trimmed, colon-free keys on one line, and no string with a stray line break |
| YamlEqual.UnreadableKeyIsLost | yaml.py:146-154 | so no dictionary with another kind of key or string, at any depth, survives the round trip, as it was or in another order |
| YamlHashes.ChildKeeps | yaml.py:64-143 | for every line sequence: the parser invents no `#`; those of a block's value stand in the lines it consumed |
| YamlHashes.TokensKeep | yaml.py:36-61 | tokens hold no more `#` than the raw lines, and strictly fewer as soon as one comment is cut |
| YamlHashes.DumpHashes | tools/run_long_horizon_portfolio_validation.py:37-97 | printed text holds exactly the `#` of the keys and strings |
| YamlEqual.EqualHashes | yaml.py:64-143 | equal values hold the same number of `#`, whatever the order of their entries |
| YamlEqual.EntriesImageEqual | tools/run_long_horizon_portfolio_validation.py:93-97 | the image of a dictionary is equal to it only if it is faithful entry by entry |
| YamlExact.SurvivorKeepsComments | yaml.py:47-48 | so a dictionary that survives lost no comment on any line of its text |
| YamlExact.ChildNoDash | yaml.py:64-143 | no successful parse gets past a bare `-` line, unless inside a block scalar |
| YamlExact.SurvivorReadable | tools/run_long_horizon_portfolio_validation.py:93-97 | every dictionary that survives is readable: plain keys, none like a list item, no comment and no raw break on any line |
| YamlExact.RoundTripExactly | tools/run_long_horizon_portfolio_validation.py:37-97 | for every dictionary: `safe_load(_yaml_dump_text(v)) == v`, as Python compares dictionaries, exactly when `v` is readable and `RoundTrip`'s conditions hold; and then the order of its entries comes back too |
| YamlExact.SimpleSurvives | tools/run_long_horizon_portfolio_validation.py:93-97 | every non-empty dictionary of nested mappings, scalars and lists of scalars or empty containers survives, when its strings need no escape, list strings hold no colon, and keys hold no quote and no comment |
| ConfigDiff.Flatten | src/config/diff.py:356-364 | the recursive loop over a dictionary computes the flat map |
| ConfigDiff.Sorted | src/config/diff.py:322 | sorting a set of paths gives them all, strictly increasing in code-point order |
| ConfigDiff.DiffMappings | src/config/diff.py:318-353 | the loop over the sorted union of paths computes the diff of the two flat maps |
| ConfigDiff.DiffIsSorted | src/config/diff.py:322 | the paths of a diff are strictly sorted |
| ConfigDiff.DiffMember | src/config/diff.py:323-352 | the diff holds exactly the added paths of the target, the removed ones of the base and the changed ones of both, each with its two values |
| ConfigDiff.DiffEmptyIffEqual | src/config/diff.py:318-353 | the diff is empty exactly when the flat maps are equal |
| ConfigDiff.PatchGivesTarget | src/config/diff.py:318-353 | patching the flat base with the diff gives the flat target, for all maps |
| ConfigDiff.DiffReverse | src/config/diff.py:318-353 | the diff the other way round is the reverse entry by entry, and takes the target back to the base |
| ConfigDiff.Summarize | src/config/diff.py:167-182 | change counts and risk counts are exact, and each kind sums to the length of the diff |
| ConfigTree.FlattenAt | src/config/diff.py:356-364 | in a clean tree the paths through one key come from that key's entry alone |
| ConfigTree.DiffEmptyIffSame | src/config/diff.py:318-364 | on trees with non-empty dot-free keys and no empty sub-mapping, the diff is empty exactly when the trees are equal |
| ConfigTree.DiffEmptyIffPrunedSame | src/config/diff.py:318-364 | for all dictionaries with non-empty dot-free keys, the diff is empty exactly when they are equal once the mappings that flatten to nothing are dropped |
| ConfigTree.PrunedFlattensAlike | src/config/diff.py:356-364 | for all trees, flattening does not see those mappings |
| ConfigTree.CleanIsPruned | src/config/diff.py:356-364 | a tree without empty sub-mappings has none to drop |
| ConfigTree.EmptyMappingCollides | src/config/diff.py:360-361 | the smallest such tree: an empty sub-mapping flattens to nothing |
| ConfigTree.DottedKeyCollides | src/config/diff.py:359 | a dotted key and a nested key flatten alike |
| ConfigTree.EmptyKeyCollides | src/config/diff.py:359 | what stands under an empty key flattens like what stands beside it |
| ConfigTree.DeepMerge | tools/run_long_horizon_portfolio_validation.py:182-190 | the recursive loop over the override computes the merge |
| ConfigTree.GetMerge | tools/run_long_horizon_portfolio_validation.py:184-189 | what each key holds after a merge: the merged mapping, the override's value, or the base's |
| ConfigTree.MergeIdempotent | tools/run_long_horizon_portfolio_validation.py:182-190 | `merge(merge(a, b), b) == merge(a, b)` for all trees |
| ConfigTree.MergeOverlay | tools/run_long_horizon_portfolio_validation.py:182-190 | on clean trees, flattening the merge is overlaying the flat maps exactly when no key holds a mapping on one side and a leaf on the other |
| ConfigTree.MergeTouchesOverride | src/config/diff.py:318-364 | then the diff from `a` to `merge(a, b)` touches only paths of `b`, sets them to the values of `b`, and removes nothing |
| ConfigTree.OverrideStands | tools/run_long_horizon_portfolio_validation.py:182-190 | on every path of the override, a merge of clean trees holds the override's value, compatible or not |
| ConfigTree.MergeStaysWithinIff | src/config/diff.py:318-364 | for clean trees, the diff from `a` to `merge(a, b)` stays on the paths of `b` exactly when no key holds a mapping on one side and a leaf on the other |
| Paper.RiskState.UpdateAfterTrade | src/backtest/paper_poc.py:545-567 | the streak update of the three risk fields |
| PaperInvariants.WinStreak | src/backtest/paper_poc.py:550-558 | after n wins in a row the risk has grown one step a win from the threshold on, up to the cap |
| PaperInvariants.LossStreak | src/backtest/paper_poc.py:559-567 | losses in a row end the wins and, from the threshold on, hold the risk at the loss percentage |
| PaperSimulator.Simulator.constructor | src/backtest/paper_poc.py:660-741 | a run starts at the base equity, with no position and one equity point |
| PaperSimulator.Simulator.BucketRisk | src/backtest/paper_poc.py:768-775 | the loop sums the open risk of the positions sharing a currency |
| PaperSimulator.Simulator.BucketCount | src/backtest/paper_poc.py:777-784 | the loop counts those positions |
| PaperSimulator.Simulator.Admission | src/backtest/paper_poc.py:849-880 | the caps and limits in their order, the division by zero included |
| PaperSimulator.Simulator.AttemptOpen | src/backtest/paper_poc.py:786-915 | one attempt: refused, raised, or a position with its stop, target, size and expiry |
| PaperSimulator.Simulator.OpenPending | src/backtest/paper_poc.py:1036-1040 | every pending entry of the symbol is tried once and removed, the others stay |
| PaperSimulator.Simulator.TakeSignals | src/backtest/paper_poc.py:1078-1096 | signals are queued for the next bar or tried at the close |
| PaperSimulator.Simulator.Book | src/backtest/paper_poc.py:982-1022 | equity, streak and trade list after a closed trade |
| PaperSimulator.Simulator.ExitPositions | src/backtest/paper_poc.py:922-1023 | trailing, stop before target before expiry, for every open position of the symbol while the list shrinks |
| PaperSimulator.Simulator.CloseResidual | src/backtest/paper_poc.py:1099-1155 | what is left open is closed at the last close of its symbol |
| PaperSimulator.Simulator.OnBar | src/backtest/paper_poc.py:917-1097 | one event: exits, session filter, pending entries, signals, one equity point |
| PaperSimulator.Simulator.Run | src/backtest/paper_poc.py:917-1155 | the whole event loop computes `RunSpec`, about which the run lemmas are |
| PaperInvariants.RunKeeps | src/backtest/paper_poc.py:917-1097 | what every entry and every exit turn keeps holds in every reachable state |
| PaperInvariants.ExposureCaps | src/backtest/paper_poc.py:765-775 | with fixed risk and non-negative percentages, in every reachable state total open risk is within the total caps, and for every currency the positions touching it are within the bucket cap together |
| PaperInvariants.MeasuredRisk | src/backtest/paper_poc.py:882-883 | a position adds no more than the percentage it was checked with exactly when risk is fixed or equity has not grown |
| PaperInvariants.AdmissionBreaksIff | src/backtest/paper_poc.py:765-775 | after an admission a cap is exceeded, for the whole book or any selection of symbols such as a currency, exactly when the open risk before it and the risk it adds exceed the cap together |
| PaperInvariants.AdmittedOverCapIff | src/backtest/paper_poc.py:855-859 | an admitted position breaks the total cap exactly when the cap stands between the checked and the added percentage, and then risk is not fixed and equity has grown |
| PaperInvariants.GrownCaps | src/backtest/paper_poc.py:765-775 | without fixed risk, in every reachable state of a run whose equity stayed between zero and a bound, no total or per-currency cap is exceeded by more than the growth of equity on the largest trade, and not at all without growth |
| PaperInvariants.GrownRunBreaksCap | src/backtest/paper_poc.py:765-766 | a run of two bars that reaches 1.02% of open risk under a cap of 1% |
| PaperInvariants.CurrencyPositionLimit | src/backtest/paper_poc.py:879-880 | with a bucket position limit in every strategy, no currency is in more open positions than that, in every reachable state |
| PaperInvariants.RunConserves | src/backtest/paper_poc.py:992-1023 | equity is base equity plus the exact P&L of the trades, every admitted position gives exactly one trade, and none is open at the end |
| PaperInvariants.CurveLength | src/backtest/paper_poc.py:1029-1155 | the equity curve has one point, one more an event, and one more when residual positions are closed |
| PaperInvariants.RoundedReport | src/backtest/paper_poc.py:1172-1180 | rounded final equity differs from base plus the rounded P&Ls by at most 0.005 a rounding |
| PaperInvariants.Round2Error | src/backtest/paper_poc.py:1010 | rounding to cents, half to even, moves a value by at most half a cent |
| PaperEntries.OverlapIff | src/backtest/paper_poc.py:743-746 | six letters name two currencies, and symbols overlap exactly when they share one |
| PaperEntries.AdmitsIff | src/backtest/paper_poc.py:839-880 | an entry is admitted exactly when nothing is above its cap with the new percentage, and nothing is at its limit |
| PaperEntries.EntryPriceExact | src/backtest/paper_poc.py:806-827 | which price an entry starts from, and on which side spread and slippage come |
| PaperEntries.StopExact | src/backtest/paper_poc.py:828-838 | where the stop stands, for a volatility and for a level with and without a buffer |
| PaperEntries.SessionExact | src/backtest/paper_poc.py:1026-1036 | which hours are traded, across midnight too |
| PaperEntries.DueAreOfSymbol | src/backtest/paper_poc.py:1037-1040 | the pending entries of the bar's symbol are tried, and exactly the others stay |
| PaperEntries.OpensIff | src/backtest/paper_poc.py:786-915 | an attempt opens a position exactly when its strategy may enter, there is a stop apart from the entry, and the checks admit it; and what the new ticket says |
| PaperEntries.EveryEntry | src/backtest/paper_poc.py:917-1098 | in every run every position ever opened has its origin: a signal of its symbol, given within trading hours by its bar or, with entry on the next bar, by an earlier one; its price, stop, target and expiry are those of that entry |
| PaperAttempts.WaitingExact | src/backtest/paper_poc.py:1036-1093 | after every run exactly those entries wait, in order, that were asked for within trading hours and whose symbol has had no bar within them since |
| PaperAttempts.EveryAttempt | src/backtest/paper_poc.py:917-1097 | in every run a bar, after its exits, tries exactly what is due on it, one entry after the other: with entry on the next bar what waited for its symbol, otherwise what its own signals ask for |
| PaperAttempts.DrawsExact | src/backtest/paper_poc.py:786-810 | in every run one slippage is drawn a trade, and one a due entry whose strategy may enter, so none of those is skipped or tried twice |
| PaperExits.TrailedExact | src/backtest/paper_poc.py:932-937 | where trailing puts the stop, for longs and for shorts |
| PaperExits.BarCloses | src/backtest/paper_poc.py:938-981 | a bar closes a position exactly when it reaches the trailed stop or the target, or is at or past the expiry, and at the price for it |
| PaperExits.EveryExit | src/backtest/paper_poc.py:919-1024 | in every run no open position has seen a bar of its symbol that reached its target or was at or past its expiry; and every trade was closed by the first such bar, or by one that reached its stop before, at the stop, else the target, else the close |
| PaperExits.RunExits | src/backtest/paper_poc.py:1100-1155 | and what is left at the end is closed in order, each at the last close of its symbol, at the time of the last bar |
| PaperLossFloor.FloorIffFavourable | src/backtest/paper_poc.py:983-989 | r is at least -1 less exit costs in units of risk exactly when the price before costs was no further than the risk |
| PaperLossFloor.TrailedRatchets | src/backtest/paper_poc.py:932-937 | trailing keeps a stop and target on the favourable side of the initial risk |
| PaperLossFloor.BarOutcome | src/backtest/paper_poc.py:938-980 | a bar closes a position at a favourable price or leaves its stop behind the close |
| PaperLossFloor.LossFloor | src/backtest/paper_poc.py:917-1155 | in every run each trade, long or short, trailed or not, keeps that floor unless it was opened on the last bar of its symbol, and then it is worth what that bar closed at |
| PaperLossFloor.EquityFloor | src/backtest/paper_poc.py:990-992 | so final equity is at least base equity less the worst move, exit costs and commission of every trade, with fixed risk, or as long as equity is not negative after a bar; trades opened on a last bar included |
| PaperLossFloor.TradeLossIff | src/backtest/paper_poc.py:983-991 | a trade loses no more than its worst move and costs exactly when its risk amount is not negative or it did as badly as that |
| PaperLossFloor.DebtBreaksFloor | src/backtest/paper_poc.py:882-883 | a run that sizes a position on negative equity ends below that floor |
| PaperRaise.JudgeRaisesIff | src/backtest/paper_poc.py:852-872 | the admission check divides by zero exactly when equity is zero while a correlated position is open, a correlation cap and correlations are set, and neither a total cap nor the bucket cap refuses first; without a starting equity, as soon as anything is open |
| PaperRaise.OpenRaisesIff | src/backtest/paper_poc.py:788-872 | an attempt divides by zero exactly when it reaches such a check |
| PaperRaise.RunRaisesIff | src/backtest/paper_poc.py:917-1155 | for all configurations and bars: a run ends in a division by zero exactly when one of the attempts it makes does, and closing the residual positions never fails |
| PaperRaise.AttemptEquity | src/backtest/paper_poc.py:992-1096 | every attempt is made at the equity its bar leaves behind |
| PaperRaise.SolventNeverRaises | src/backtest/paper_poc.py:864-870 | with a starting equity, no run divides by zero whose equity is never zero after a bar, or which has no correlation cap or no correlations |
| PaperRaise.QuietBar | src/backtest/paper_poc.py:1042-1048 | a bar without features, with nothing open or pending, adds a point to the curve and nothing else |
| PaperRaise.CorrelatedRunRaises | src/backtest/paper_poc.py:864-870 | after any warm-up of such bars, three bars are enough: a stop takes all equity while a correlated position is open |
| PaperRaise.WarmRunRaises | src/backtest/paper_poc.py:748-761 | among them runs in which both symbols have more than ten returns, and move together |
| PaperLossFloor.RoundTripCosts | src/backtest/paper_poc.py:821-827 | entry and exit together cost both spreads and both slippages, for longs and shorts |
| PaperLossFloor.TargetPays | src/backtest/paper_poc.py:884-888 | reaching the target pays the target multiple less exit costs |
| PaperLossFloor.StopPays | src/backtest/paper_poc.py:830-834 | a volatility stop is on the losing side, and being stopped there loses one risk plus exit costs |
| PaperLossFloor.LevelStopBuffer | src/backtest/paper_poc.py:835-838 | a level stop stands beyond its level for every buffer, by 0.08 or more when none is given |
| RateLimit.RateLimitWindow.constructor | src/brokers/monitor.py:172-186 | a full bucket, an empty queue and an unused credit |
| RateLimit.RateLimitWindow.RefillTokens | src/brokers/monitor.py:278-286 | the refill, with the mark moving only after the reset time |
| RateLimit.RateLimitWindow.PruneQueue | src/brokers/monitor.py:339-346 | entries too old are removed, the others keep their order |
| RateLimit.RateLimitWindow.ReserveDetail | src/brokers/monitor.py:192-240 | grant, grant on credit or denial; the new bucket, the waiting time between the two clock readings around it, and a depth no smaller than the queue left |
| RateLimit.RateLimitWindow.UpdateLimits | src/brokers/monitor.py:242-248 | new limits of at least one, with tokens cut to the new burst |
| RateLimit.RateLimitWindow.ShrinkCapacity | src/brokers/monitor.py:250-254 | the same with both limits scaled and truncated |
| RateLimit.RefillExact | src/brokers/monitor.py:278-286 | sixty times what a refill gives is the per-minute limit times the seconds since the mark, unless the burst cuts it; when the mark moves, and when the credit comes back |
| RateLimit.IdleMinute | src/brokers/monitor.py:280-282 | an idle minute fills an empty bucket with the smaller of burst and sustained |
| RateLimit.ReserveExact | src/brokers/monitor.py:192-240 | a reservation that is served, by a whole token or for an urgent one the unused credit, costs one token; one that is not is queued and costs nothing |
| RateLimit.WaitReaches | src/brokers/monitor.py:219 | whoever waits as long as told finds the reset window over, and no sooner |
| RateLimit.LimitsExact | src/brokers/monitor.py:242-254 | new limits are at least one, cut the tokens, and leave the rest |
| RateLimit.ScaledExact | src/brokers/monitor.py:251-252 | a scaled limit is the integer part of the product, and at least one |
| RateLimit.PrunedIsSuffix | src/brokers/monitor.py:339-346 | pruning a queue in order of time cuts off exactly the entries older than the limit |
| RateLimit.EveryRun | src/brokers/monitor.py:192-286 | in every run, from any burst: tokens are at most the burst and at least -1, or one below a negative starting burst; below zero or that burst the credit is spent; grants = burst + net refill - cuts - tokens, so at most the burst, if positive, + 1 + refill |
| RateLimit.OneCredit | src/brokers/monitor.py:208-210 | after a grant on credit nothing is granted before the bucket has regained a whole token |
| RateLimit.PrunedTwice | src/brokers/monitor.py:339-346 | pruning now and again later is pruning once later |
| RateLimit.QueueExact | src/brokers/monitor.py:263-265 | after every run the queue is the end of the list of denied requests: exactly those no older than the maximal age |
| RateLimit.Unbounded | src/brokers/monitor.py:278-286 | within half a second inside one reset window any number of requests can be granted |
| RateLimit.TextbookIff | src/brokers/monitor.py:278-286 | for every configuration: burst + credit + rate * time bounds the grants of every run exactly when, with a burst, the reset time is not positive or nothing is sustained, and, without one, the burst is zero; never for a negative rate |
| StageGuard.RequirementsMet | src/brokers/stage_guard.py:647-667 | no reason is listed exactly when the stage's conditions hold, which for `full_auto` is never |
| StageGuard.ReduceReasons | src/brokers/stage_guard.py:647-667 | each reason is given exactly when its condition is not met, in the order of the checks |
| StageGuard.PartialReasons | src/brokers/stage_guard.py:647-667 | the same for partial automation; none for manual, always one for full |
| StageGuard.DemotedIff | src/brokers/stage_guard.py:670-682 | when a review moves a stage down to manual, when to reduce-only, and when not |
| StageGuard.RecommendedDemotions | src/brokers/stage_guard.py:670-682 | the recommendation built up check by check |
| StageGuard.EligibleYetDemoted | src/brokers/stage_guard.py:647-682 | at most one demotion, always downwards; a stage that may be entered is recommended down again in the same context exactly for fill alerts (`partial_auto`) or an emergency (`reduce_only`) |
| StageGuard.Evaluate | src/brokers/stage_guard.py:388-441 | allowed are exactly the higher stages whose conditions hold, blocked with their reasons the other higher stages, all when the flag is off |
| StageGuard.AutonomyStageGuard.Promote | src/brokers/stage_guard.py:166-206 | the stage, history and outcome of a promotion, with its three refusals |
| StageGuard.AutonomyStageGuard.RollbackOne | src/brokers/stage_guard.py:208-235 | one stage down, or nothing at the bottom |
| StageGuard.AutonomyStageGuard.HandleError | src/brokers/stage_guard.py:237-244 | only a circuit breaker rolls back |
| StageGuard.AutonomyStageGuard.Recover | src/brokers/stage_guard.py:246-273 | one stage up, or nothing at the top |
| StageGuard.AutonomyStageGuard.RequestTransition | src/brokers/stage_guard.py:275-323 | a request is filed, unless the stage is unknown |
| StageGuard.AutonomyStageGuard.ApproveRequest | src/brokers/stage_guard.py:325-356 | the first request with the id is approved only by a promotion that went through |
| StageGuard.AutonomyStageGuard.DenyRequest | src/brokers/stage_guard.py:358-386 | a pending request is refused, others untouched |
| StageGuard.FreshRun | src/brokers/stage_guard.py:496-501 | in every run the history is a chain from `manual_only` to the current stage, every approved request has its transition in it, and the guard names who made the last transition and when |
| StageGuard.MoveKinds | src/brokers/stage_guard.py:166-273 | a move without an override climbs to a stage whose conditions hold, or is one step of a rollback or recovery |
| StageGuard.PromotesIff | src/brokers/stage_guard.py:166-206 | a promotion goes to the stage it names, never down; without an override only up, and only where the context is eligible; and how it fails otherwise |
| StageGuard.UnknownIsRefused | src/brokers/stage_guard.py:176-177 | the name of no stage is refused |
| StageGuard.MoveIsRecorded | src/brokers/stage_guard.py:166-273 | a step that moves is recorded as it was asked for: by whom, when, from and to where, and why |
| StageGuard.FullAutoEntry | src/brokers/stage_guard.py:246-273 | every step of a run that enters full_auto is an override, or a recovery from partial_auto |
| StageGuard.WalkIsOneClamp | src/brokers/stage_guard.py:208-273 | any mix of rollbacks, errors and recoveries acts on every stage as one shift by the sum of its strides, clamped |
| StageGuard.RecoverUndoesRollback | src/brokers/stage_guard.py:208-273 | recovering undoes a rollback exactly when the stage was not `manual_only`, where it promotes instead |
| StageGuard.RequestsSettle | src/brokers/stage_guard.py:275-386 | over every run requests keep their places, and a decided one never changes |
| StageGuard.DecisionDecides | src/brokers/stage_guard.py:325-386 | an approval that moves leaves the first request with the id approved, a denial that answers leaves it refused, by that actor at that time; any other decision fails and changes nothing |
| StageGuard.ApprovesIff | src/brokers/stage_guard.py:325-343 | an approval moves exactly when the request is pending and its stage is higher and eligible |
| StageGuard.FiledPending | src/brokers/stage_guard.py:275-293 | a request is filed pending, for the stage it names, behind the others |
| StageGuard.DecidedOnce | src/brokers/stage_guard.py:333-365 | over every run, after a decision that went through every later one on the same id fails as not pending |
| OrderLog.PayloadRoundTrip | src/brokers/order_store.py:37-123 | writing a state as nested dictionaries, reading them key by key and writing again is the identity on payloads exactly for states that name a schema |
| OrderLog.StateRoundTrip | src/brokers/order_store.py:342-383 | the state itself comes back exactly when, besides, no recovery action leaves its parameters unset |
| OrderLog.StateBack | src/brokers/order_store.py:342-383 | what was written never makes a reader raise, and comes back with its defaults filled in |
| OrderLog.PlanBack | src/brokers/order_store.py:37-72 | so does a recovery plan with its list of actions |
| OrderLog.ReadingIsStable | src/brokers/order_store.py:109-383 | whatever record was read, writing its state and reading it again gives the same state |
| OrderLog.WrittenKeys | src/brokers/order_store.py:37-123 | the keys a state, its plan and the plan's actions are written under |
| OrderLog.MissingKeys | src/brokers/order_store.py:371-383 | what is read from a record without keys |
| OrderLog.MissingPlanKeys | src/brokers/order_store.py:342-370 | and from a plan and an action without keys |
| OrderLog.ReadsIff | src/brokers/order_store.py:342-383 | what a record may hold, and what makes reading it fail |
| Payload.FalseValues | src/brokers/order_store.py:225 | which values count as false |
| Payload.WholeNumbers | src/brokers/order_store.py:375 | from which values a whole number is read |
| Payload.TextsOf | src/brokers/order_store.py:372-376 | the text of a value, and of values in containers |
| Payload.OneMoreItem | src/brokers/order_store.py:372-376 | every further item after a comma and a blank |
| Payload.OneMoreEntry | src/brokers/order_store.py:372-376 | and every further entry |
| Payload.QuotedPlain | src/brokers/order_store.py:372-376 | which quotes a text in a container stands in |
| OrderLog.OrderStateStore.SaveState | src/brokers/order_store.py:176-196 | the record lands behind every record of files named that day or before, and before later ones |
| OrderLog.OrderStateStore.History | src/brokers/order_store.py:207-214 | the loop over sorted files computes the states of an order, in order, or raises at the first of its records that cannot be read |
| OrderLog.OrderStateStore.LatestState | src/brokers/order_store.py:280-287 | the loop that `load` uses returns the last element of that history, or raises with it |
| OrderLog.OrderStateStore.List | src/brokers/order_store.py:216-243 | an order is listed exactly when its last state's status is among those asked for and its envelope's strategy agrees; or the error of a record that cannot be read |
| OrderLog.OrderStateStore.Cleanup | src/brokers/order_store.py:249-278 | exactly the files written after the cutoff stay |
| OrderLog.LoadIsLastRecord | src/brokers/order_store.py:198-214 | for every log: `load` raises exactly when some record of the order, however old, cannot be read, and otherwise parses its last record |
| OrderLog.ListRaisesIff | src/brokers/order_store.py:223-229 | `list` raises exactly when some record with a usable id, of whatever order, cannot be read |
| OrderLog.ListIsLastListed | src/brokers/order_store.py:223-229 | otherwise it holds exactly the last listed record of each key |
| OrderLog.ListAgreesIff | src/brokers/order_store.py:211-229 | `list` and `load` read the same record of an order exactly when the last one `load` sees has a usable id |
| OrderLog.MissingIdIsUnlisted | src/brokers/order_store.py:211-228 | a record without an id is loaded as "None" and never listed |
| OrderLog.FalsyIdIsUnlisted | src/brokers/order_store.py:226-228 | nor is one whose id is falsy, readable or not |
| OrderLog.OtherIdIsListed | src/brokers/order_store.py:226-229 | every other one is listed under the text of its id, in place of earlier ones |
| OrderLog.SavedIsLoaded | src/brokers/order_store.py:176-205 | after a save, unless a later-dated file mentions the order, `load` answers the saved state with its defaults, or raises if an older record of the order cannot be read |
| OrderLog.CleanupKeepsLoad | src/brokers/order_store.py:249-278 | for every order whose latest record is in a kept file, and every unknown one, cleaning leaves `load` unchanged exactly unless it takes away the records that made it raise |
| OrderLifecycle.OrderLifecycleManager.Create | src/brokers/order_lifecycle.py:68-109 | an order is created exactly when its stage allows it, and every envelope ever stored respects its stage |
| OrderLifecycle.OrderLifecycleManager.UpdateOrder | src/brokers/order_lifecycle.py:111-140 | the state appended from what `load` returned and the payload; nothing is written when `load` raises |
| OrderLifecycle.OrderLifecycleManager.AttachFillTo | src/brokers/order_lifecycle.py:178-203 | a fill is one update with its summary |
| OrderLifecycle.OrderLifecycleManager.RecoverOrder | src/brokers/order_lifecycle.py:205-249 | a scheduled recovery is one update with its plan |
| OrderLifecycle.OrderLifecycleManager.FinalizeOrder | src/brokers/order_lifecycle.py:251-269 | finalising is one update, and the receipt quotes its evidence |
| OrderLifecycle.LandsLast | src/brokers/order_store.py:177-184 | when no file is named after the date, a write becomes the last record of the log |
| OrderLifecycle.CallIsWritten | src/brokers/order_lifecycle.py:92-249 | what each kind of call leaves in the log: status, time, what it was given, and nothing where it was given nothing |
| OrderLifecycle.EvidenceAndAttempts | src/brokers/order_lifecycle.py:119-126 | which evidence and how many attempts an update leaves |
| OrderLifecycle.CreatedIff | src/brokers/order_lifecycle.py:68-75 | in which stages an order is created |
| OrderLifecycle.EvidenceKept | src/brokers/order_lifecycle.py:119-126 | in every interleaving of calls on many orders, an order keeps its evidence hash through writes that do not override it, and its attempt count grows by exactly its own increments |
| OrderLifecycle.RunRaises | src/brokers/order_lifecycle.py:111-140 | no run of calls makes `load` raise for an order, or stop raising |
| OrderLifecycle.OrderFromCreation | src/brokers/order_lifecycle.py:92-99 | whatever happened before, from its creation on an order's evidence is the digest of its id and its attempts are counted from one by its own writes, unless a record it had before makes `load` raise |
| OrderLifecycle.OthersUntouched | src/brokers/order_lifecycle.py:111-140 | no run of calls on other orders changes what `load` answers for one |
| EventBus.DropOldestBus.ApplyBackpressure | src/core/event_bus.py:253-261 | it leaves room, so the put that follows never waits; it drops only from a full queue |
| EventBus.DropOldestBus.Publish | src/core/event_bus.py:95-114 | pressure sample, backpressure, then the event at the end of the queue |
| EventBus.DropOldestBus.HandleDropOldest | src/core/event_bus.py:263-269 | the oldest event goes and is counted, if there is one |
| EventBus.DropOldestBus.Get | src/core/event_bus.py:143 | a get takes the oldest event |
| EventBus.EveryInterleaving | src/core/event_bus.py:95-151 | in every interleaving of publishes and gets the queue is a suffix of what was published, within its bound, published = consumed + dropped + queued, and the consumed events are a subsequence |
| EventBus.DropsExactly | src/core/event_bus.py:253-269 | in every run exactly one event is dropped for each publish that meets a full queue |
| EventBus.NoDropIffRoom | src/core/event_bus.py:253-269 | so nothing is dropped exactly when every publish finds room |
| EventBus.SamplesExactly | src/core/event_bus.py:95-110 | exactly one pressure sample is taken for each publish that meets a queue at four fifths of its bound |
| EventBus.NextTurn | src/core/event_bus.py:142-151 | one turn of the subscriber yields the event it takes exactly when kind and filter match |
| EventBus.Interleave | src/core/event_bus.py:95-151 | publishes and turns of the subscriber in any order are the steps of a run |
| EventBus.YieldsWhatItConsumed | src/core/event_bus.py:136-151 | in every interleaving a single live subscriber has yielded, in order, exactly the consumed events of its kind that pass its filter |
| EventBus.MissesDroppedAndQueued | src/core/event_bus.py:95-151 | of the published events it wants, it has missed exactly the dropped and the still queued ones |
| Guardrails.HealthMonitor.RaiseCondition | src/core/health.py:186-248 | the reason is added or updated, and the level merged only if the event was written |
| Guardrails.HealthMonitor.RecomputeStatus | src/core/health.py:385-390 | the loop computes the join of the reasons |
| Guardrails.HealthMonitor.ClearReason | src/core/health.py:305-317 | clearing one reason leaves the join of the others; clearing all resets |
| Guardrails.Join | src/core/health.py:391-401 | the merge is one of its arguments and at least both |
| Guardrails.JoinAllIsLeast | src/core/health.py:385-390 | the recomputed status is the least one that dominates every reason |
| Guardrails.RaiseTo | src/core/health.py:152-162 | what a written raise of each level does to the status: at least its place in the order, exactly that from ok, and no fall; unknown levels count as degraded |
| Guardrails.RaiseStops | src/core/health.py:186-440 | so a hard stop halts with 63, and every level but ok and info guards the board and leaves at least 21 |
| Guardrails.RunReasons | src/core/health.py:186-317 | in every run there is one reason a code at most, with the level it was last raised with |
| Guardrails.ClearKeepsOthers | src/core/health.py:305-317 | clearing a code keeps exactly the reasons with other codes |
| Guardrails.StepDominates | src/core/health.py:186-248 | a step keeps the status above every reason exactly unless a write fails for a higher level |
| Guardrails.RunDominatesIff | src/core/health.py:186-317 | the status dominates every reason at every moment of a run exactly when no step of it is an unwritten raise above the status it meets |
| Guardrails.RunDominates | src/core/health.py:186-317 | so while event writes succeed it does in every run |
| Guardrails.StatusBetweenClears | src/core/health.py:217-248 | between clears the status is the least one above where it stood and every level raised and written since |
| Guardrails.StatusSinceClear | src/core/health.py:217-317 | in every run, from its last clear on, the status is the least one above the reasons that clear left and every level raised and written since |
| Guardrails.SummaryConsistent | src/core/health.py:420-536 | halted exactly with exit 63; guarded means reduce-only and 21 or 62; normal means 62 under a soft stop and 0 otherwise |
| Guardrails.SummaryTable | src/core/health.py:414-536 | exit code, board, reduce-only and spread status from the strings they come from |
| Guardrails.AllClear | src/core/health.py:420-536 | the exit code is 0 exactly when every input is clear |
| Guardrails.RaiseNeverRelaxes | src/core/health.py:186-248 | no raise lowers the exit code or the board mode |
| Gate.GateAggregator.AssignSymbolComponent | src/core/gate.py:546-565 | one part of one symbol's block is set or cleared, and an emptied block is removed |
| Gate.GateAggregator.AssignAll | src/core/gate.py:418-420 | the loop over symbols is one assignment after the other |
| Gate.GateAggregator.UpdateNews | src/core/gate.py:410-420 | the global news, if given, then the symbols |
| Gate.GateAggregator.UpdateCalendar | src/core/gate.py:422-432 | the same for the calendar |
| Gate.GateAggregator.UpdateSpread | src/core/gate.py:434-446 | the same for the spread; a global spread that is not normal turns automatic execution off |
| Gate.GateAggregator.UpdateLiquidity | src/core/gate.py:448-452 | guarded or halted liquidity turns it off |
| Gate.GateAggregator.ChangeRisk | src/core/gate.py:454-473 | the given risk fields are replaced, the others kept; reduce-only turns it off |
| Gate.GateAggregator.ApplyRiskAssessment | src/core/gate.py:475-478 | the risk record is replaced; reduce-only turns it off |
| Gate.GateAggregator.ChangeHuman | src/core/gate.py:480-502 | the given approval fields are replaced, the others kept |
| Gate.GateAggregator.DropSymbol | src/core/gate.py:504-505 | the block of a symbol is removed |
| Gate.GateAggregator.SetProfitReadiness | src/core/gate.py:507-522 | readiness is stored, and execution allowed only with all three conditions |
| Gate.GateAggregator.SetAuto | src/core/gate.py:524-531 | the latch condition, which does not look at the market |
| Gate.GateAggregator.AttachHashes | src/core/gate.py:399-405 | a hash that is given and not empty is stored |
| Gate.GateAggregator.SetSchemaVersion | src/core/gate.py:392-397 | the version is replaced |
| Gate.GateAggregator.EnforceGuards | src/core/gate.py:305-324 | any of five guards turns automatic execution off |
| Gate.EveryGateRun | src/core/gate.py:410-565 | in every run from a good state automatic execution implies readiness and no reduce-only, and no per-symbol block is empty |
| Gate.ReportsAreStored | src/core/gate.py:410-452 | a report is stored and nothing else, but for execution |
| Gate.GivenFieldsAreStored | src/core/gate.py:454-502 | of risk and approval the given fields are stored and the others kept |
| Gate.ArmedIff | src/core/gate.py:305-324 | when execution is armed, by hand or by readiness, and when the guards let it stand; hashes and version as given |
| Gate.PartIsAssigned | src/core/gate.py:546-565 | one part of one symbol is set or cleared, an empty block leaves, everything else stays |
| Gate.StepRespects | src/core/gate.py:434-531 | one step keeps execution off while the spread is not normal, or liquidity guarded or halted, exactly unless it re-arms then |
| Gate.RunRespectsIff | src/core/gate.py:434-531 | so it stays off at every moment of a run exactly when no step re-arms in such a market |
| Gate.SpreadIsNotLatched | src/core/gate.py:524-531 | every ready gate has such a run |
| Gate.BlockBack | src/core/gate.py:136-163 | a block reads back from its dictionary, which holds only the parts that are there |
| Gate.BlocksBack | src/core/gate.py:187-212 | the per-symbol dictionary, sorted and without empty blocks, reads back as the blocks that are not empty |
| Gate.MarketBack | src/core/gate.py:186-222 | the market dictionary of nested records reads back, but for its empty blocks |
| Gate.RiskBack | src/core/gate.py:236-251 | so does the risk dictionary |
| Gate.HumanBack | src/core/gate.py:273-292 | and that of the human approvals |
| Gate.GateRoundTrip | src/core/gate.py:326-361 | `from_dict(to_dict(s)) == s` for the whole gate, optional hashes and version included, exactly when no per-symbol block is empty, as every run guarantees |
| Gate.RecordKeys | src/core/gate.py:42-292 | the keys each record is written under |
| Gate.NestedKeys | src/core/gate.py:187-338 | the keys of what holds them, and which are left out |
| Gate.PartsGiven | src/core/gate.py:154-163 | a block lacks exactly the parts that are missing or falsy, and any other value that is no dictionary is an error |
| Gate.BlocksGiven | src/core/gate.py:209-212 | the blocks of a market likewise |
| Gate.MissingMarketKeys | src/core/gate.py:205-222 | what is read where optional keys of a market are missing |
| Gate.MissingGateKeys | src/core/gate.py:353-361 | and of a gate |
| WalkForward.EndsExactly | src/backtest/walkforward.py:41-57 | the loop ends exactly for a positive step or when it adds nothing to begin with; otherwise it adds a segment after every number of segments |
| WalkForward.BuildPlan | src/backtest/walkforward.py:27-58 | whenever it ends, the loop computes the plan from cursor to end |
| WalkForward.NeighboursMeetIff | src/backtest/walkforward.py:45-57 | for every positive step, neighbouring test windows meet exactly when the step is the test window, leave a gap exactly when it is longer, and overlap otherwise |
| WalkForward.BuildPlanFromSpecs | src/backtest/walkforward.py:61-92 | it fails exactly for an unreadable spec, and otherwise ends with the plan whose step is its test window |
| WalkForward.SpecDays | src/backtest/walkforward.py:81-95 | a number of days, weeks or months of thirty days, in either case and with blanks around, and no other unit |
| WalkForward.SpecPlanTiles | src/backtest/walkforward.py:41-57 | for all specs: empty exactly without room or test window, else test windows that tile [start + train, end) each behind its full training window, as many as fit rounded up |
| Backfill.EnqueueSegments | src/core/session.py:1262-1278 | the loop computes the segments, split into four hours for a long manual retry |
| Backfill.SegmentsTile | src/core/session.py:1270-1283 | segments are non-empty, contiguous, cover exactly [start, end), respect their length, and their floored minutes sum to the floored total |
| Backfill.EnqueueJobs | src/core/session.py:1262-1304 | the queued jobs are numbered from one, contiguous, cover the interval, and their minutes sum to the total |
| HealthStore.BusinessDaysSince | src/core/health_store.py:33-47 | the day-by-day loop counts the weekdays after start up to end |
| HealthStore.ClosedForm | src/core/health_store.py:41-47 | that count is five a whole week plus the part week, in constant time |
| HealthStore.CountAdds | src/core/health_store.py:41-47 | it is additive over adjacent intervals and monotone in the end date |
| HealthStore.HealthStateStore.RecordTransition | src/core/health_store.py:96-120 | the history grows by the event and the summary is refreshed at its time |
| HealthStore.HealthStateStore.RefreshCounters | src/core/health_store.py:142-157 | an ok time the history does not hold is kept, the rest is recounted |
| HealthStore.HealthStateStore.LatestOkTs | src/core/health_store.py:225-234 | the loop finds the newest ok time |
| HealthStore.HealthStateStore.RollingDegradedCount | src/core/health_store.py:237-247 | the loop counts degraded events of the last 30 days |
| HealthStore.LatestOkIsNewest | src/core/health_store.py:225-234 | it is the time of an ok event, and no ok event is newer, whatever the order of the history |
| HealthStore.DegradedCounts | src/core/health_store.py:237-247 | the count is the number of degraded, soft-stop and hard-stop events of the thirty days up to now |
| HealthStore.HistoryIsEvents | src/core/health_store.py:96-120 | the history is the events in order, each with its state or the one before it |
| HealthStore.SummaryIsRecomputed | src/core/health_store.py:96-157 | after every run of transitions the persisted summary equals recomputation from the full history at the last event's time |
| Resync.ResyncCoordinator.LoadQueue | src/core/resync.py:79-91 | every job id with its last record |
| Resync.ResyncCoordinator.EnqueueManualCsvJobs | src/core/resync.py:257-281 | one manual job a symbol, counted |
| Resync.ResyncCoordinator.ProcessJobs | src/core/resync.py:101-221 | without a dry run every job with an id appends one record and one result, manual jobs are the symbols of failed and manual jobs, and counters and providers are exact; a dry run changes nothing |
| Resync.CountsAddUp | src/core/resync.py:126-221 | completed, failed and manual results are all the jobs with ids |
| Resync.KnownCounts | src/core/resync.py:126-129 | the jobs that are processed are those with an id, as often as they stand there |
| Resync.JobLeaves | src/core/resync.py:144-211 | what each processed job leaves, manual, completed or failed |
| Resync.ByHandAndRetries | src/core/resync.py:144-211 | by hand go the symbols of exactly the manual and the broken jobs; retries and counters are those of the others |
| Resync.StatusOfLast | src/core/resync.py:79-91 | a job's status is that of its last record |
| Resync.ProvidersNamed | src/core/resync.py:171-174 | the report names exactly the providers of the completed jobs, each once |
| Resync.ProcessedIsTerminal | src/core/resync.py:79-91 | every processed job ends in a terminal status as `load_queue` sees it |

## Left out

- YamlExact.RoundTripExactly: floats are those that print with a point.
- YamlRoundTrip.LoadOfDump: stated for readable dictionaries; what an unreadable one loads as is not described, only that it is not itself.
- YamlReader.SafeLoad: the text after a `# JSON` marker is returned unparsed, since `json.loads` is not part of this model; reading from a file object is left out.
- PyText.IntRoundTrip: non-ASCII digits and the interpreter's limit on the number of digits are left out.
- YamlPrinted.InlineReadsBack: a float is known by a literal with a point; floats whose printed form has none (`1e+16`, `inf`, `nan`) are outside the domain.
- Dictionary keys are strings; `str(key)` of other key types is left out.
- YamlForms.LoadsFields: about the lines that tokenising leaves. Each child may be indented by a step of its own; of lines that fit no such indentation only the errors of `Refused` and `LeftOfStart` are stated.
- ConfigDiff.DiffMember: values are compared as typed values, so Python's `1 == True == 1.0` is not modelled, and dictionaries inside lists with their order.
- ConfigDiff.Summarize: the list of numeric changes, risk patterns, signing and rendering are left out.
- Money and prices are exact reals; floating-point rounding is left out, except the rounding of the reported figures to cents.
- Slippage, spread, correlations, session windows of a strategy, features, signals and time to live are arbitrary inputs of the simulator; dataset loading and the exports are left out. The order of simultaneous bars of different symbols is the order of the input.
- PaperRaise.RunRaisesIff: about the event loop and the residual close; the metrics computed from the trades afterwards are left out, among them `pf_all`, which divides by the sum of the rounded losses.
- PaperRaise.WarmRunRaises: correlations are an input of the model; that the source would compute one from these returns is not part of it, only that it has enough of them.
- PaperSimulator.Simulator.ExitPositions: positions and pending entries are told apart by their place in the list; the source removes the first equal dictionary.
- Symbols are upper-cased, and recorded states and the arguments of the gate lower-cased, for ASCII letters only.
- Clocks do not go back; timestamps, ids and digests are inputs. Metrics, audits, alerts, agendas, worklogs and banners are left out.
- RateLimit.EveryRun: stated for a sustained rate that is not negative; a negative one is accepted by the source, and drains the bucket.
- StageGuard.Evaluate: next actions, runbook references and review events are left out; so are saving the guard and loading its context from files.
- OrderLog.OrderStateStore.List: results are a map, without the order of the source's list; an envelope is its strategy, stage and reduce-only flag. Locks, several modes and the contents of the archive are left out.
- OrderLog.StateBack: the JSON text between writing and reading is not part of this model, nor are lines that hold JSON other than an object; a list of pairs as `parameters` and an attempt written as a float with an exponent are read by the source and are errors here. The text of a container shows characters beyond ASCII as they are.
- OrderLog.OrderStateStore.Cleanup: archives overwrite files of the same name from another mode, so nothing is claimed about what they hold.
- EventBus.YieldsWhatItConsumed: one live subscriber; with several, each discards events the others wanted. Replay, catch-up, snapshots, log rotation and the two other backpressure policies rest on file order and wall time.
- Gate.GateAggregator.SetSchemaVersion: a version is a number or a text, as declared; one that carries hashes of its own is left out.
- Gate.GateRoundTrip: a point in time is a number shown and read by a pair of functions of which the second undoes the first. Where a dictionary holds a value of a type its record does not declare, the source stores it as it is, and the model reports an error; `to_dict` writes none.
- Guardrails.RaiseNeverRelaxes: for any fixed gate and kill-switch inputs.
- Guardrails.HealthMonitor.ClearReason: the queued actions it also drops, and kill-switch suggestions, are left out.
- WalkForward.BuildPlan: requires that the loop ends, by the exact guard of `EndsExactly`; days are unbounded, where a negative step of the source would run out of calendar.
- Backfill.EnqueueJobs: ids, priorities and the printed times, which drop microseconds, are left out.
- HealthStore.SummaryIsRecomputed: runs of recorded transitions; acknowledging a degraded state recounts only the business days, at the wall clock.
- Resync.ResyncCoordinator.LoadQueue: the other fields of a job and the sort for display are left out, and so are the errors of a backfill other than the two the loop catches.
- Broker adapters, failover, certification, alerting, the rest of the session manager, the front end and the reporting tools are left out: input and output, or settled by reading one function.
