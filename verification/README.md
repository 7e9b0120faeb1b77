# Verified models of GNU Radio 4 core

Models of the stateful parts of GNU Radio 4 core, with proofs of what they promise. `dafny verify dfyconfig.toml` checks
all of it.

| module | models |
|---|---|
| `BlockMerging`, `TappedMerges`, `TapOutputs`, `MergedRuns`, `UnprimedRuns`, `PrimedElsewhere` | merged blocks: the fused evaluation, the leaf graph and port maps of any nesting, taps, and the leaf graph fired in any order, with its loops primed, primed elsewhere or not |
| `RunProtocol`, `RunHistory` | `gr::Runtime`: client, run and stop threads under one mutex, one critical section a step; what the steps write, when calls return and what a run adds up to |
| `SettingsStore`, `Settings`, `CtxSettings` | the settings of a block: the time-indexed store of every context, the staging map and the apply; `CtxSettings` updates the fields in place and gives each new state as the function of `Settings` with its name |
| `SettingsInvariants`, `SettingsAnswers`, `SettingsEffects`, `SettingsDefaults`, `SettingsFollowing`, `SettingsTransactions`, `SettingsStoredSets`, `SettingsCaps`, `SettingsRuns`, `CapRuns` | what every operation keeps and answers, what an accepted apply and a reset bring, which settings follow tags, what a refusal takes back and a removal takes away, how many contexts are stored, and every interleaving of calls and applies |
| `GraphWalk`, `GraphRanks`, `GraphPlacement` | the drawing of a graph: cycle-closing edges, ranks and boxes |
| `AtomicBitset`, `BitsetRuns` | the lock-free bitset: word masks, range updates and interleaved accesses |
| `JsonText`, `JsonLayout`, `JsonWriter` | the JSON writer of grinfo, a parser that reads its text back and a reader of its layout |
| `Placeholders`, `Numerals` | type parameters put into a text and taken out |
| `ReplaceBlock` | a block of a graph replaced by another |
| `PortIndex` | index and name spellings of ports and their numbers |
| `Anchors` | unique anchors of a document |
| `BoundedQueues` | unsent replies and pending events |
| `Registrations` | the translation units of block registrations |
| `Wrappers` | the option type |

Where the code differs from a plain reading of it:

- Settings: a new set goes in front of the stored sets of its time while pruning keeps the last of them, so pruning can
  bring back an older value (core/src/Settings.cpp:504-538). `PruningKeepsLookups` gives the exact condition and
  `EqualTimesLoseTheNewerSet` a store that shows it.
- Merged blocks: the port map of a feedback merge with a tap leaves the declared tap output out
  (core/include/gnuradio-4.0/BlockMerging.hpp:875-922), and a further merge looks its output up in that map by the fused
  number. `TappedMerges` says what it then joins. A merge of the tap's own output looks past the end of the map; such
  nestings are not `Mappable`. `graph()` hands out a feedback loop with no sample on it; the scheduler puts the sample
  there before the first run (core/include/gnuradio-4.0/Scheduler.hpp:1211-1237).
- Ports: `absolutePortIndex` numbers some index definitions that name no port, and "name#1abc" names a port but gets no
  number (core/include/gnuradio-4.0/BlockModel.hpp:246-285, 897-990).
- Settings: `kMaxContexts` is documented as the most contexts a block stores, the default one included
  (core/include/gnuradio-4.0/Settings.hpp:907), and only set() asks for it (core/src/Settings.cpp:61-78). A reset stores
  its set of the default context without asking (core/src/Settings.cpp:801), so that one context more than the cap can
  hold sets where the default context held none, before init() or after its sets expired: `CapIsPassed` gives the run,
  `EventPassesCapIff` the exact condition, and `CapHoldsWithDefault` the blocks in which the cap holds. `SettingsOverAllRuns` has what holds in all of them.
- Settings: a reset finds the defaults it has stored by a lookup, which answers with a set stored earlier for a later
  time once that time has come (core/src/Settings.cpp:801-802). `DefaultsAreFound` gives the exact condition.
- Settings: the sum of a set's time and the expiry time wraps at 64 bits, and a set then expires early
  (core/src/Settings.cpp:521). `ExpiresAfter` gives the exact time.
- Settings: autoUpdateParameters() is a getter that makes an empty entry for a set without one, after which no setting
  follows there (core/src/Settings.cpp:230-234). `ReadAnswers` says when.
- Placeholders: any text after the digits of a placeholder is ignored, and a text's own placeholders are put in like
  those the replacement wrote (tools/grinfo_main.cpp:914-931). `ComesBackIff` says which texts come back.

## Model

| member | source | states |
|---|---|---|
| BlockMerging.FlatSampleEqualsFused | core/include/gnuradio-4.0/BlockMerging.hpp:349-410 | for every nesting of merges without a tap and any wires that agree with the leaf graph, the external outputs are the fused outputs and the leaves and the held sample step as the fused block does |
| BlockMerging.WiringConsistent | core/include/gnuradio-4.0/BlockMerging.hpp:44-68 | such wires exist for every nesting without a tap and every input: the leaf graph always has a sample-by-sample meaning |
| BlockMerging.PortsPlaced | core/include/gnuradio-4.0/BlockMerging.hpp:380-410 | every leaf input port lies on exactly one edge or one external slot, and every leaf output port on at least one |
| BlockMerging.OutputsOwnedIffMergeOnly | core/include/gnuradio-4.0/BlockMerging.hpp:757-791 | each leaf output lies on exactly one edge or slot if and only if the nesting has no feedback merge, whose forward output is both fed back and external |
| BlockMerging.PortMapCompleteIffTapFree | core/include/gnuradio-4.0/BlockMerging.hpp:885-922 | the external port map names every declared output if and only if no merge with a tap is exposed: the tap is a declared output the map leaves out |
| BlockMerging.MergedCall | core/include/gnuradio-4.0/BlockMerging.hpp:351-378 | a merge's call port by port: the left block gets the first inputs, the right one the others with the joined sample at its own place, and the outputs are the left block's but the joined one, then the right block's |
| BlockMerging.LoopedCall | core/include/gnuradio-4.0/BlockMerging.hpp:737-755 | a feedback merge's call: the forward block gets the held sample at the looped place, its output passes the monitor and the feedback block, and what that returns is held for the next call |
| BlockMerging.GraphWithPortMaps | core/include/gnuradio-4.0/BlockMerging.hpp:380-410 | the vectors and edges filled in loops, nested merges included, are the leaf graph of the nesting |
| BlockMerging.JoinGraphs | core/include/gnuradio-4.0/BlockMerging.hpp:380-410 | a merge's edge and its two port maps, the joined ports left out |
| BlockMerging.LoopGraphs | core/include/gnuradio-4.0/BlockMerging.hpp:757-791 | a feedback merge's edges, with or without a monitor, and its port maps |
| BlockMerging.PortsOf | core/include/gnuradio-4.0/BlockMerging.hpp:59-66 | the ports of one leaf in index order |
| BlockMerging.Except | core/include/gnuradio-4.0/BlockMerging.hpp:390-407 | a port map without its joined port |
| MergedRuns.EveryRunAgrees | core/include/gnuradio-4.0/BlockMerging.hpp:349-410 | for every nesting without a tap, under any order of firings each external output stream is a prefix of the fused output stream and every leaf's state is the fused one after its own number of firings |
| MergedRuns.NeverStalls | core/include/gnuradio-4.0/BlockMerging.hpp:757-791 | while a leaf has firings left some leaf can fire: one sample held on the feedback edge keeps every nesting of loops moving |
| MergedRuns.FinishedRunEqualsFused | core/include/gnuradio-4.0/BlockMerging.hpp:349-410 | for every nesting without a tap: once no leaf can fire below the input's length n, each output stream begins with what n fused calls return, and leaves that fired n times hold the fused states, whatever the order |
| MergedRuns.WaitingAtMostOne | core/include/gnuradio-4.0/BlockMerging.hpp:757-791 | only feedback edges hold a sample between two samples, and each holds one |
| UnprimedRuns.UnprimedLoopIsStuck | core/include/gnuradio-4.0/BlockMerging.hpp:793 | as graph() hands the leaf graph out, with no sample on any loop: in any run a leaf on a loop or behind one never fires, and nothing leaves it |
| UnprimedRuns.UnprimedFiresTheRest | core/include/gnuradio-4.0/BlockMerging.hpp:757-793 | and only those: a finished run of any nesting has fired a leaf not at all if it is on or behind a loop, and as often as the input is long if it is not |
| UnprimedRuns.LeafLoopFeedsItself | core/include/gnuradio-4.0/BlockMerging.hpp:757-791 | every leaf of a loop of leaves, its monitor included, is such a leaf |
| PrimedElsewhere.EveryMovedRunAgrees | core/include/gnuradio-4.0/Graph.hpp:1413-1424 | a loop primed one edge early, before a leaf that hands the sample on as it is and keeps its state: in any order of firings each external output stream is a prefix of the fused one and every leaf holds the fused state after its own number of firings, that leaf's first one not counted |
| PrimedElsewhere.LoopPassesOn | core/include/gnuradio-4.0/Graph.hpp:1292-1335 | the edge into the feedback block of a merge is such an edge, when that block is a leaf that maps the sample held to itself |
| TappedMerges.UntappedGraph | core/include/gnuradio-4.0/BlockMerging.hpp:875-922 | a nesting with taps compiles to the leaf graph of the nesting without them, so that whatever holds of leaf graphs and their runs holds of its own |
| TappedMerges.UntappedSteps | core/include/gnuradio-4.0/BlockMerging.hpp:879-922 | where every merge joins the output it names, its fused calls are those of the nesting without taps, in its states and in the outputs the map names |
| TappedMerges.FlatSampleEqualsFusedAtNamed | core/include/gnuradio-4.0/BlockMerging.hpp:875-922 | with taps in the nesting, where every merge joins the output it names: the leaves and held samples step as the fused block does, and each entry of the external output map carries the fused output it stands for |
| TappedMerges.FinishedRunEqualsFusedAtNamed | core/include/gnuradio-4.0/BlockMerging.hpp:875-922 | so for a finished run in any order: each entry's stream begins with what n fused calls return at the output it stands for, and the leaves hold the fused states |
| TappedMerges.NamedInOrder | core/include/gnuradio-4.0/BlockMerging.hpp:390-400 | those entries stand for different fused outputs, in order |
| TappedMerges.JoinCarriesNamed | core/include/gnuradio-4.0/BlockMerging.hpp:385-389 | what a merge behind a tap joins: the left block's fused output that the map's entry stands for, which is the output the merge names if and only if the merge is aligned |
| TappedMerges.TapShiftsTheNextJoin | core/include/gnuradio-4.0/BlockMerging.hpp:879-922 | the smallest nesting that is not: past the merge of a tapped loop's output 0, a merge of output 0 joins output 1 |
| TappedMerges.MisalignedIff | core/include/gnuradio-4.0/BlockMerging.hpp:385-389 | a nesting is not aligned if and only if some merge in it, with an aligned left block, joins another output than the one it names |
| TappedMerges.ShiftedDiffers | core/include/gnuradio-4.0/BlockMerging.hpp:879-922 | one such nesting: for any two samples that differ its last leaf returns the one in the fused call and the other in the leaf graph |
| TappedMerges.TapFreeIsAligned | core/include/gnuradio-4.0/BlockMerging.hpp:380-410 | without a tap every merge is aligned and the map names every output |
| TapOutputs.TapIsHeld | core/include/gnuradio-4.0/BlockMerging.hpp:909-919 | the last output of a tapped feedback merge is the sample it holds after the call |
| TapOutputs.LoopOutPorts | core/include/gnuradio-4.0/BlockMerging.hpp:757-791 | the leaf port behind that output is the source of the edge that closes the loop |
| TapOutputs.EveryOutputCarried | core/include/gnuradio-4.0/BlockMerging.hpp:909-919 | in every consistent wiring of an aligned nesting's leaf graph, the port behind each fused output, taps included, carries what the fused call returns there |
| TapOutputs.EveryRunSuppliesOutputs | core/include/gnuradio-4.0/BlockMerging.hpp:909-919 | so in a run in any order: a reader of such a port has been supplied the edge's first sample, if it is primed, and then what the fused calls return at that output, and has the part it has not taken waiting |
| RunProtocol.StepKeepsInv | core/src/Runtime.cpp:204-261 | every critical section keeps the invariant: counters in order, one thread in the run, one stop request, transitions for rising runs, the held mutex's owner in a join |
| RunProtocol.ExecutionKeepsInv | core/src/Runtime.cpp:204-261 | so does every interleaving of them |
| RunProtocol.CountersOverAllRuns | core/src/Runtime.cpp:178-261 | nRunsEnded <= nRunsReturned <= nRunsStarted <= nRunsEnded + 1, a request in flight is for the run in progress, and each run gets at most one stop transition |
| RunProtocol.NoLaterRunIsStopped | core/src/Runtime.cpp:248-261 | while a run's stop transition is under way that run is the last one started and has not ended, and no step starts or ends a run |
| RunProtocol.RunReportsItsOwnOutcome | core/src/Runtime.cpp:204-213 | the step that ends a run records that run's outcome, a failed thread creation included |
| RunProtocol.ResultIsTheLastEndedRun | core/src/Runtime.cpp:647-656 | result() answers exactly when no run is in progress, and with the outcome of the last run that ended |
| RunProtocol.JoinNeverWaitsForTheMutex | core/src/Runtime.cpp:611-613 | a thread joined with runMutex held has finished its last critical section, so the join needs no mutex |
| RunProtocol.ReturnedRunCanMove | core/src/Runtime.cpp:204-213 | when the scheduler call of the run in progress has returned, some thread can step, and that step lowers a measure of what is left until the run has ended |
| RunProtocol.ReturnedRunOnlyEnds | core/src/Runtime.cpp:204-261 | no step of any thread raises that measure or starts another run: the run ends, or stays returned |
| RunHistory.CountersMove | core/src/Runtime.cpp:204-213 | each counter rises at exactly one kind of event: an accepted start, a scheduler call that returns or a thread that does not start, and the end of a run, which waits for a request in flight |
| RunHistory.RequestsMove | core/src/Runtime.cpp:218-260 | a request begins at exactly the first stop of a run in progress and ends at exactly the return of its transition or a look that finds the scheduler call returned |
| RunHistory.TransitionsMove | core/src/Runtime.cpp:248-261 | the transition is made at exactly a look that sees an active scheduler whose call has not returned, for the run in progress |
| RunHistory.WritesNothing | core/src/Runtime.cpp:248-258 | a refused start, a stop with no run in progress and a look at an inactive scheduler before its call returns change nothing |
| RunHistory.CallEntered | core/src/Runtime.cpp:590-618 | which call a client is inside of after it makes one, and which calls return at once |
| RunHistory.CallLeft | core/src/Runtime.cpp:618-634 | runAndWait() returns with the end of its run, start() once its run is active or has returned or its thread does not start, stop() at the end of its run or its timeout, and nothing else leaves a call |
| RunHistory.LaunchesItsThread | core/src/Runtime.cpp:218-237 | a run goes to the run thread and a request to the stop thread, or to the client when that does not start |
| RunHistory.StopsOverAllRuns | core/src/Runtime.cpp:243-261 | over every interleaving: the transitions are exactly those deliveries in order, each for a run asked to stop; a run asked to stop gets one, or its scheduler call returns, before its request ends; and stop() waits only for such runs |
| RunHistory.OutcomesOverAllRuns | core/src/Runtime.cpp:204-213 | over every interleaving: the outcomes stored are those the scheduler calls and failed launches brought, in order, but for one whose run waits for its stop request |
| SettingsStore.LowerBound | core/src/Settings.cpp:504-505 | the binary search finds the first set that is not before the time |
| SettingsStore.FindSettingsCtx | core/src/Settings.cpp:424-449 | binary search lookup equals the latest set at or before the time by linear scan, and the last set for time 0 |
| SettingsStore.InsertionAnswers | core/src/Settings.cpp:497-506 | with distinct times, an inserted set answers from its time to the next set's and every other time is answered as before |
| SettingsStore.PrunedKeeps | core/src/Settings.cpp:534-547 | pruning keeps every later set, an order, and of the sets not later than now only those of the newest time |
| SettingsStore.PruningKeepsLookups | core/src/Settings.cpp:534-547 | pruning changes no lookup at or after now if and only if, of the stored sets of the newest time not later than now, the first and the last hold the same settings or that time is now |
| SettingsStore.DistinctTimesAnswer | core/src/Settings.cpp:534-547 | with distinct times that condition holds at every now |
| SettingsStore.EqualTimesLoseTheNewerSet | core/src/Settings.cpp:504-538 | two sets of one time that differ: the lookup returns the newer before pruning and the older after |
| SettingsStore.UnexpiredSorted | core/src/Settings.cpp:519-529 | erasing expired sets keeps the order |
| SettingsStore.ExpiresAfter | core/src/Settings.cpp:519-522 | a set expires once the expiry time has passed since its own; where the sum leaves 64 bits, as many ticks earlier |
| SettingsInvariants.SetKeepsInv | core/src/Settings.cpp:669-722 | set() keeps the invariant: ordered vectors, entries only for stored sets, capped later sets, staged values reported, stored values that convert |
| SettingsInvariants.SetIsFound | core/src/Settings.cpp:669-722 | what set() stored is what a lookup finds from its time to the next set's: the given values over the best match before |
| SettingsInvariants.OneSetNotLater | core/src/Settings.cpp:508-549 | with distinct times, of the sets that are not expired pruning leaves every later one and, of those not later than now, the latest and no other |
| SettingsInvariants.PendingKept | core/src/Settings.cpp:61-78 | pruning raises no count of later sets |
| SettingsInvariants.RemovalKeeps | core/src/Settings.cpp:332-344 | erasing one set with its entry, and the context with its last set, keeps the invariant |
| SettingsInvariants.RemoveKeepsInv | core/src/Settings.cpp:314-356 | so does a removal, which can activate the default context and move the context to go back to |
| SettingsStoredSets.RemovalRemoves | core/src/Settings.cpp:314-356 | removeContext() returns true exactly when the context is not the default one and holds a set of the time; then that context's sets are one set of that time fewer, gone with the last, all others are as before, and with distinct times no set of the time and no entry for it is left |
| SettingsStoredSets.RemovalLeavesContext | core/src/Settings.cpp:346-356 | after the removal of a set of the active context the default context's present set is active for good; any other removal leaves the active context, and what a refusal would return to is no removed set |
| SettingsInvariants.ActivationCannotThrow | core/src/Settings.cpp:269-303 | an activation stages only values that convert, so it cannot throw half way |
| SettingsInvariants.ActivateKeepsInv | core/src/Settings.cpp:256-307 | both kinds of activation keep the invariant |
| SettingsInvariants.StageDefaultsKeepsInv | core/src/Settings.cpp:779-813 | a reset's staging of the defaults keeps the invariant |
| SettingsInvariants.AutoUpdateKeepsInv | core/src/Settings.cpp:815-906 | a tag keeps the invariant, the context it names included |
| SettingsInvariants.BeginKeepsInv | core/src/Settings.cpp:972-1049 | taking and applying a batch keeps the invariant |
| SettingsInvariants.FinishKeepsInv | core/src/Settings.cpp:1050-1128 | so does its end, with the roll back of a refusal |
| SettingsTransactions.RefusedMembersReturn | core/src/Settings.cpp:1159-1185 | after a refusal every member holds its value from before the apply, except where the limits refuse that value |
| SettingsTransactions.RefusedActivationReturns | core/src/Settings.cpp:1187-1199 | a refused activation of another context, with a reset in its batch or not, returns to the context before it, with the members as before unless the limits refuse their values, and without the reset the stored sets too |
| SettingsTransactions.RefusedReturnsTo | core/src/Settings.cpp:1064-1067 | a refused batch returns to the context recorded by the activation in it, a reset in the batch or not |
| SettingsTransactions.RefusedBatchReturns | core/src/Settings.cpp:1187-1199 | the context and staged values after the refusal of any batch: the recorded context, or the one its own reset left, or the default context's present set when that one is gone; and the stored sets where the batch moved to another context, for the others see `RefusalTakesBackStored` |
| SettingsTransactions.RefusedResetInBatchReturns | core/src/Settings.cpp:998-1018 | a refused batch whose own reset made the default context active returns to the context before it |
| SettingsTransactions.RefusedResetReturns | core/src/Settings.cpp:767-775 | so does a refused resetDefaults(), to the context before an activation staged with it when there is one |
| SettingsTransactions.RefusedBatchKeepsAutoKeys | core/src/Settings.cpp:1068-1076 | a refused batch puts back the keys that follow tags in every surviving set, with or without a reset in it |
| SettingsTransactions.RefusedResetKeepsAutoKeys | core/src/Settings.cpp:767-813 | so does a refused resetDefaults() |
| SettingsTransactions.TagOnlyRefusalReports | core/src/Settings.cpp:1078-1108 | a refusal throws unless tags alone staged the reported keys; then it names them as failed, applies none of them and forwards nothing; with the defaults of a reset in the batch, every writable key is applied or failed, and both only for a default that the limits refused |
| SettingsStoredSets.RefusalTakesBackStored | core/src/Settings.cpp:1159-1185 | whatever calls came between, a refusal of a batch that activated no context puts back, in the first stored set of the batch's context, each reported value that the set holds still and whose old member value the limits take, and leaves every other value, set and context; one that activated a context leaves all |
| SettingsStoredSets.RefusedBatchTakesBackStored | core/src/Settings.cpp:1159-1185 | so with no call between, told from the staged values: the set holds the members' old values again |
| SettingsStoredSets.RefusedValuesAreNotFound | core/src/Settings.cpp:1159-1185 | and a lookup that found the batch's set finds the old value there |
| SettingsEffects.ActivatedValuesApply | core/src/Settings.cpp:288-301 | an activation of another context and one apply bring the stored values of its best match into the members, except where a value was staged already |
| SettingsEffects.ReactivatedValuesApply | core/src/Settings.cpp:269-287 | another time of the active context brings only the values that do not follow tags, over staged ones |
| SettingsEffects.ResetInBatchTakesEffect | core/src/Settings.cpp:998-1018 | a reset in a batch makes the default context's present set the active one and brings its values to the members, all of them from another context and those that do not follow tags from the default context, under the batch's own values |
| SettingsEffects.DefaultsAreFound | core/src/Settings.cpp:801-802 | that set is the one the reset stored, and its values are the defaults, exactly when the default context holds no set of a later time that has come |
| SettingsEffects.ResetRestoresDefaults | core/src/Settings.cpp:779-813 | a reset in a batch then restores every default from another context; from the default context those of the keys that do not follow tags in the stored set, and none at that set's own time |
| SettingsEffects.ResetCallRestoresDefaults | core/src/Settings.cpp:767-775 | resetDefaults() likewise, under the staged values from another context and over them from the default one |
| SettingsEffects.StagedValuesApply | core/src/Settings.cpp:1020-1030 | an apply gives each member its staged value if the limits take it and changes no other |
| SettingsDefaults.EventStoresDefaults | core/src/Settings.cpp:752 | the defaults change exactly at storeDefaults() and at the end of an apply that was asked to and did not throw, and then hold every member as it is |
| SettingsDefaults.ResetRestoresStored | core/src/Settings.cpp:752-775 | whatever happens in between without storing defaults again, a resetDefaults() brings a member back as it was when they were stored, where the limits take the value, nothing staged replaces it and, in the default context, it does not follow tags |
| SettingsAnswers.SetAnswers | core/src/Settings.cpp:669-722 | set() throws exactly for a value the limits refuse, a context too many or a later set too many, and returns exactly what names no writable setting |
| SettingsAnswers.SetStagedAnswers | core/src/Settings.cpp:724-750 | setStaged() throws exactly for a value that does not convert, and returns exactly what names no writable setting |
| SettingsAnswers.ActivateAnswers | core/src/Settings.cpp:256-307 | activateContext() answers the match and makes it active, or answers none and changes nothing |
| SettingsAnswers.MatchIsFound | core/src/Settings.cpp:424-449 | the match is what the time finds among the sets of the context named, else of the stored one the match predicate picks |
| SettingsAnswers.BestIsNewest | core/src/Settings.cpp:431-448 | the set found is not later than the time and none of those is newer; without a time none at all is |
| SettingsAnswers.ActivateKeepsFollowing | core/src/Settings.cpp:269-307 | an activation within the context leaves an entry for the set it goes to, with the keys that followed there, and changes no other |
| SettingsAnswers.SetInheritsFollowing | core/src/Settings.cpp:669-722 | the set that set() adds follows tags like the set its other values come from, but for the settings given |
| SettingsAnswers.PruneKeepsEntries | core/src/Settings.cpp:508-549 | with distinct times a set that pruning keeps keeps its entry |
| SettingsAnswers.ResetRefuses | core/src/Settings.cpp:779-803 | a reset is refused exactly when the limits refuse a default it would bring, answers those, and changes nothing |
| SettingsAnswers.RestoredAreTaken | core/src/Settings.cpp:779-803 | so every default that a reset restores and that converts is one the limits take |
| SettingsAnswers.TagMarks | core/src/Settings.cpp:815-906 | what a tag stages, by its activation included, is marked as the tag's, the control keys apart, and a mark comes with a staged value or the context the tag moves to |
| SettingsAnswers.StagedUnmarks | core/src/Settings.cpp:738-744 | what setStaged() stages is marked no more |
| SettingsAnswers.TagSetsOnly | core/src/Settings.cpp:879-900 | past its activation a tag stages a setting only where it is coupled to a key of the tag, follows in the context, takes the value's type and the block does not report the value in that context already |
| SettingsAnswers.FollowsInContext | core/src/Settings.cpp:855-878 | the keys that follow in a tag's context: of the stored set, else of the set matched at the context's time, else of the one matched now |
| SettingsAnswers.TagControls | core/src/Settings.cpp:880-889 | the reset and store keys of a tag are staged under their own names |
| SettingsAnswers.TagChanges | core/src/Settings.cpp:901-905 | a tag without a context leaves changed() true exactly when something is staged; one with a context also when it moves the active context or changed() was true |
| SettingsAnswers.ActivationChanges | core/src/Settings.cpp:269-307 | an activation raises changed() exactly when it moves |
| SettingsAnswers.CouplingsAnswer | core/src/Settings.cpp:922-957 | setTagCouplings() throws exactly for an entry of no writable setting or with a refused key; otherwise the table and every entry of following keys change as asked and nothing else does |
| SettingsAnswers.ReadAnswers | core/src/Settings.cpp:230-234 | autoUpdateParameters() answers the keys of the matched set and makes an empty entry where there is none, after which nothing follows there and a second read answers the same |
| SettingsAnswers.AppliedIsActive | core/src/Settings.cpp:1046-1093 | past every part of an apply the values that the block reports are its members' |
| SettingsAnswers.CallbackIsTold | core/src/Settings.cpp:1033-1044 | the callback is told exactly the members that moved with their new values, and the context where the batch moved to another |
| SettingsAnswers.AcceptAnswers | core/src/Settings.cpp:1021-1030 | an accepted apply answers every writable staged value as applied or failed by the limits, and the callback's forwarded values |
| SettingsRuns.CallKeepsInv | core/src/Settings.cpp:238-356 | set, setStaged, activateContext, removeContext, autoUpdate, setTagCouplings, storeDefaults, updateActiveParameters and autoUpdateParameters keep the invariant |
| SettingsRuns.EventKeepsInv | core/src/Settings.cpp:972-1128 | every critical section keeps it, whatever applies are between their parts |
| SettingsRuns.SettingsOverAllRuns | core/src/Settings.cpp:724-750 | over every interleaving from a fresh block: staged values imply changed(), vectors are sorted, later sets are capped, entries belong to stored sets, no more contexts than the cap hold sets, the default one not counted, and no reset stays half done |
| SettingsRuns.EventKeepsCap | core/src/Settings.cpp:61-78 | every event keeps the cap on the contexts other than the default one |
| SettingsRuns.EventKeepsSettled | core/src/Settings.cpp:998-1018 | after every event no reset is half done and every writable member exists, which is what the results on refusals start from |
| SettingsCaps.ResetPassesCapIff | core/src/Settings.cpp:801-802 | a reset leaves sets of more contexts than the cap if and only if it finds every place taken and none by the default context |
| CapRuns.EventPassesCapIff | core/include/gnuradio-4.0/Settings.hpp:907 | exactly which event leads past the cap: such a reset, and within a batch only if no set expires before the batch's pruning |
| CapRuns.CapHoldsWithDefault | core/include/gnuradio-4.0/Settings.hpp:907 | with expiry off and a set of the default context, the cap itself holds from then on over every interleaving |
| CapRuns.CapIsPassed | core/src/Settings.cpp:801-802 | and a run that passes it: from any fresh block whose limits take its defaults, a set in each of as many contexts as the cap allows, and resetDefaults() |
| SettingsRuns.EventStages | core/src/Settings.cpp:991-996 | only calls write into the staging map and only the start of an apply takes out of it |
| SettingsRuns.StagedIsWhatWasWritten | core/src/Settings.cpp:1052-1064 | between two takes the staging map is what it was with everything written since, in order |
| SettingsRuns.BatchIsWhatWasStagedSince | core/src/Settings.cpp:991-996 | each apply takes the whole map once, and the next batch is exactly what was staged since the start of the last apply or resetDefaults(), during its callback included |
| SettingsRuns.ResetBatchIsWhatWasStagedSince | core/src/Settings.cpp:767-775 | so is the batch of a resetDefaults(), with the values that the reset stages itself |
| SettingsRuns.ReturnedApplyReports | core/src/Settings.cpp:1124-1126 | a returned apply leaves changed() true exactly when something has been staged since it took its batch |
| SettingsFollowing.CoupledFollows | core/include/gnuradio-4.0/Settings.hpp:772-774 | a coupled setting follows its tag key from the call on, in every context and whatever set it before |
| SettingsFollowing.CoupledTagSets | core/src/Settings.cpp:815-906 | a tag with the key stages its value for the setting, over staged ones, unless the active parameters hold the value |
| SettingsFollowing.UncoupledIsNotSet | core/include/gnuradio-4.0/Settings.hpp:768-769 | an empty key takes the setting from every tag: what is staged for it stays as it was, or as the activation of a context the tag names left it |
| SettingsFollowing.SetStopsFollowing | core/include/gnuradio-4.0/Settings.hpp:774 | in the set that set() stores, its keys follow no more and the others follow as in the set it came from |
| SettingsFollowing.ResetMakesAllFollow | core/include/gnuradio-4.0/Settings.hpp:774-775 | after a reset every setting follows again, in every context |
| SettingsFollowing.ResetCallMakesAllFollow | core/src/Settings.cpp:806-811 | so they do after resetDefaults() |
| CtxSettings.CtxSettingsBase.FindBestMatchSettingsCtx | core/src/Settings.cpp:424-449 | the lookup of the fields is the best match of the store |
| CtxSettings.CtxSettingsBase.RefusesStoredSet | core/src/Settings.cpp:61-78 | the count from the back decides both caps |
| CtxSettings.CtxSettingsBase.SetImpl | core/src/Settings.cpp:669-722 | the fields after set() are those of the specification, and unchanged when it throws |
| CtxSettings.CtxSettingsBase.RemoveExpiredStoredParameters | core/src/Settings.cpp:508-549 | every context is pruned and the dropped sets' entries are erased |
| CtxSettings.CtxSettingsBase.PruneSets | core/src/Settings.cpp:518-548 | one vector's kept sets and dropped contexts |
| CtxSettings.CtxSettingsBase.SetStagedImpl | core/src/Settings.cpp:724-750 | every value is staged or none is, and tag marks and changed() follow |
| CtxSettings.CtxSettingsBase.ActivateContextImpl | core/src/Settings.cpp:256-307 | the whole new state of an activation and the context it reports |
| CtxSettings.CtxSettingsBase.RemoveContextImpl | core/src/Settings.cpp:314-356 | the whole new state of a removal and whether it removed |
| CtxSettings.CtxSettingsBase.StageDefaultsImpl | core/src/Settings.cpp:779-813 | the whole new state of the staged defaults, and the refused ones with the state untouched |
| CtxSettings.CtxSettingsBase.AutoUpdate | core/src/Settings.cpp:815-906 | the whole new state after a tag |
| CtxSettings.CtxSettingsBase.BeginApply | core/src/Settings.cpp:972-1049 | the state and the batch an apply holds when it releases the mutex |
| CtxSettings.CtxSettingsBase.FinishApply | core/src/Settings.cpp:1050-1112 | the state and the outcome of an apply past its callback, roll back included |
| CtxSettings.CtxSettingsBase.RollBackBatch | core/src/Settings.cpp:1063-1077 | the members, the batch's own stored set, the context and the keys that follow tags go back |
| CtxSettings.CtxSettingsBase.BeginResetDefaults | core/src/Settings.cpp:767-775 | resetDefaults() up to the callback, or its refusal with the state untouched |
| CtxSettings.CtxSettingsBase.SetCouplings | core/src/Settings.cpp:922-957 | setTagCouplings(): the whole new state, or the refusal of any entry with the state untouched |
| CtxSettings.CtxSettingsBase.ReadCouplings | core/src/Settings.cpp:929-953 | the loop over the entries: the new table and the settings that follow |
| CtxSettings.CtxSettingsBase.AutoUpdateParameters | core/src/Settings.cpp:230-234 | the getter: the keys of the best match, and the empty entry it makes for a best match without one |
| GraphWalk.MarkClosingEdges | tools/GraphDoc.hpp:819-850 | the walk ends; it marks only edges on cycles, every cycle has a marked edge, and the nodes it leaves behind are in an order the unmarked edges descend; an edge is marked exactly when its target is left behind no earlier than its source |
| GraphWalk.EveryCycleIsMarked | tools/GraphDoc.hpp:819-850 | no cycle consists of unmarked edges |
| GraphWalk.KeepsAllIffAcyclic | tools/GraphDoc.hpp:819-850 | the walk marks no edge if and only if the graph has no cycle |
| GraphWalk.CycleIsCutAtRoot | tools/GraphDoc.hpp:831-850 | a cycle is cut where it meets the node first in the file: if no earlier node leads to v, every edge of a cycle into v is marked, and of the edges of a cycle out of v only one back to v |
| GraphWalk.BackEdgeOnCycle | tools/GraphDoc.hpp:841-844 | an edge to a node on the walk closes a cycle with the walk's own edges |
| GraphWalk.CollectOutgoing | tools/GraphDoc.hpp:820-823 | each node's edges in the order of the file |
| GraphWalk.EdgesRise | tools/GraphDoc.hpp:820-823 | a node's edges are followed in file order, each once |
| GraphWalk.KeptPathShort | tools/GraphDoc.hpp:853 | a path of unmarked edges is shorter than the number of nodes |
| GraphRanks.RankNodes | tools/GraphDoc.hpp:852-864 | within nodeCount passes every rank is the length of the longest path of unmarked edges to the node, below nodeCount, and every unmarked edge goes to a higher rank |
| GraphRanks.Pass | tools/GraphDoc.hpp:853-863 | the k-th pass accounts for every path of k edges, and a pass that moves nothing leaves no edge to relax |
| GraphRanks.RelaxedIsLongest | tools/GraphDoc.hpp:852-864 | relaxed ranks that paths reach are the longest paths |
| GraphPlacement.Layout | tools/GraphDoc.hpp:819-899 | ranks are longest paths; boxes are disjoint, inside the canvas with its margin, no larger or further apart than asked, and every unmarked edge runs left to right; where no earlier node leads to a node, every edge of a cycle into it is marked |
| GraphPlacement.PlaceNodes | tools/GraphDoc.hpp:866-899 | ranks lie in columns from left to right, nodes of a rank below one another in file order and each column centred, each column as wide as its widest node, each gap the one given, the tallest column at the margins |
| GraphPlacement.BoxesDisjoint | tools/GraphDoc.hpp:887-897 | no two boxes overlap |
| GraphPlacement.CollectColumns | tools/GraphDoc.hpp:866-873 | each column holds the nodes of its rank in file order |
| GraphPlacement.WidestOf | tools/GraphDoc.hpp:879-883 | a column is as wide as the widest of its nodes' padded text, or the least width |
| AtomicBitset.MaskHas | core/include/gnuradio-4.0/AtomicBitset.hpp:128 | the mask of setBitsInWord() holds the bits from begin to end and no other, the whole-word end included |
| AtomicBitset.AccessesCoverRange | core/include/gnuradio-4.0/AtomicBitset.hpp:71-100 | the word accesses of a range cover its bits and no other |
| AtomicBitset.RangeSet | core/include/gnuradio-4.0/AtomicBitset.hpp:71-100 | set(begin, end, v) changes exactly the bits in [begin, end) |
| AtomicBitset.Bitset.SetRange | core/include/gnuradio-4.0/AtomicBitset.hpp:71-100 | in place: the words after the accesses in order, bit by bit the range set |
| AtomicBitset.Bitset.SetBit | core/include/gnuradio-4.0/AtomicBitset.hpp:57-69 | set(pos, v) changes bit pos and no other |
| AtomicBitset.Bitset.Test | core/include/gnuradio-4.0/AtomicBitset.hpp:110-121 | test() reads the bit |
| BitsetRuns.EveryBitIsOldOrNew | core/include/gnuradio-4.0/AtomicBitset.hpp:126-137 | under every interleaving of loads, exchanges and stores of operations on disjoint bits, each bit is at every moment as it was or as its operation sets it |
| BitsetRuns.FinishedRunSetsPointwise | core/include/gnuradio-4.0/AtomicBitset.hpp:57-100 | once every operation is done, its bits hold its value and the others what they held |
| BitsetRuns.FinishedRunEqualsAnyOrder | core/include/gnuradio-4.0/AtomicBitset.hpp:57-100 | that is what the operations leave one after the other, in any order |
| BitsetRuns.InOrderBit | core/include/gnuradio-4.0/AtomicBitset.hpp:57-100 | the bits after operations one after the other |
| JsonWriter.WriteDocument | tools/grinfo_main.cpp:1297-1402 | the calls of any value tree write exactly its pretty-printed text, and a text of well-formed literals reads back as the tree |
| JsonWriter.Writer.WriteValue | tools/grinfo_main.cpp:1303-1376 | at any depth and place the calls of a value add its separator and its pretty-printed text |
| JsonWriter.Writer.Separate | tools/grinfo_main.cpp:1303-1316 | the comma, line break and indentation before a value, or none after a key |
| JsonWriter.Writer.Close | tools/grinfo_main.cpp:1323-1331 | a bracket on a line of its own, or at once when nothing stands in it |
| JsonWriter.Writer.Key | tools/grinfo_main.cpp:1361-1366 | a quoted name that its value follows on the line |
| JsonWriter.Writer.AppendQuoted | tools/grinfo_main.cpp:1338-1359 | the loop writes the escaped text between quotation marks |
| JsonText.DocumentReadsBack | tools/grinfo_main.cpp:1297-1402 | a parser of RFC 8259 returns the tree from its text, its literals being numbers of the grammar, true, false and null |
| JsonText.ValueReadsBack | tools/grinfo_main.cpp:1297-1402 | so that parser does for a value anywhere in a document, whatever follows it |
| JsonText.CountIsNumber | tools/grinfo_main.cpp:1376 | the numeral of every count is a number of that grammar |
| JsonText.StringReadsBack | tools/grinfo_main.cpp:1338-1359 | escapes read back, control characters by code point included |
| JsonText.EscapeLength | tools/grinfo_main.cpp:1340-1357 | the short escapes are used where there are any |
| JsonLayout.DocumentLaid | tools/grinfo_main.cpp:1303-1331 | told from the characters alone: each line of a document is indented two spaces for each bracket open before it, lines break after opening brackets and commas and before closing ones, a colon has one space after it, and all brackets are closed at the end |
| Placeholders.ReplaceAll | tools/grinfo_main.cpp:902-910 | the loop ends although the replacement may hold the pattern, and replaces the occurrences from left to right in the text as it was |
| Placeholders.Substitute | tools/grinfo_main.cpp:914-931 | the loop puts in the parameter of each placeholder in range and leaves every other brace |
| Placeholders.ComesBackIff | tools/grinfo_main.cpp:953-956 | with parameters free of "{", substituting gives the text back if and only if no brace that the replacement left reads as a placeholder in the replaced text |
| Placeholders.SubstituteUndoesReplacement | tools/grinfo_main.cpp:912-913 | so does any text in which no opening brace stands before a digit, whatever the parameters hold |
| Placeholders.OwnPlaceholderIsLost | tools/grinfo_main.cpp:912-931 | one text, "{0}" with the parameter "a", that does not come back |
| Numerals.FromCharsReadsDecimal | tools/grinfo_main.cpp:923 | an index read from its own decimal spelling |
| Numerals.FromCharsReadsFront | tools/grinfo_main.cpp:923-925 | the digits in front are read whatever follows them, unless they spell a number too large |
| ReplaceBlock.Graph.ReplaceBlock | core/src/Graph.cpp:32-109 | throws exactly when no block has the name, the block exports a port, none loads or the ports do not pair one to one, and then leaves blocks, edges and buffers; otherwise every edge end, the block's slot and the buffers of each pair move once |
| ReplaceBlock.ReplaceableIs | core/src/Graph.cpp:32-89 | those four conditions, told from the edges: both blocks have ports for each end on the block, which may exchange buffers, and ends share a port of the one exactly when they share a port of the other |
| ReplaceBlock.Graph.PairEnds | core/src/Graph.cpp:76-89 | the loop over the edges succeeds if and only if the ends pair one to one, before anything changes |
| ReplaceBlock.Graph.PairPort | core/src/Graph.cpp:55-74 | one end checked against the pairs so far |
| ReplaceBlock.Graph.TakeOver | core/src/Graph.cpp:94-104 | the edges on the block are rewritten, self-loops at both ends, and no other |
| ReplaceBlock.NoEdgeNamesReplaced | core/src/Graph.cpp:94-104 | no end names the replaced block afterwards and every other field of the edge is kept |
| ReplaceBlock.PortsSharedAsBefore | core/src/Graph.cpp:48-74 | two ends share a port after exactly when they did before |
| ReplaceBlock.BuffersFollowEnds | core/src/Graph.cpp:91-104 | every edge end has the buffer it had before, on its old port or its new one |
| ReplaceBlock.ExchangedAt | core/src/Graph.cpp:91-93 | one exchange per pair gives each port the other's buffer |
| PortIndex.FlatIsInjective | core/include/gnuradio-4.0/BlockModel.hpp:955-972 | different ports have different numbers below the number of ports |
| PortIndex.FlatIsOnto | core/include/gnuradio-4.0/BlockModel.hpp:955-972 | every number below it is a port's |
| PortIndex.CountPortsPrior | core/include/gnuradio-4.0/BlockModel.hpp:955-972 | the loop counts a single port as one and a collection by its size |
| PortIndex.IndexNumbered | core/include/gnuradio-4.0/BlockModel.hpp:974-989 | an index definition that names a port gets that port's number |
| PortIndex.IndexAccepted | core/include/gnuradio-4.0/BlockModel.hpp:974-989 | exactly which index definitions get a number although they name no port, and which ones throw instead of returning an error |
| PortIndex.NameNumbered | core/include/gnuradio-4.0/BlockModel.hpp:991-1013 | a name definition gets its port's number, an error when it names none, and an error exactly when something stands after its digits |
| PortIndex.NameResolves | core/include/gnuradio-4.0/BlockModel.hpp:246-285 | each port's own name, with its place for a port of a collection, resolves to it |
| PortIndex.IndexResolves | core/include/gnuradio-4.0/BlockModel.hpp:289-318 | so does its index spelling |
| PortIndex.IndexNamesOne | core/include/gnuradio-4.0/BlockModel.hpp:289-318 | no other index definition resolves to it |
| PortIndex.NameNamesOne | core/include/gnuradio-4.0/BlockModel.hpp:246-285 | a name that resolves is a single port's name, or a collection's name, "#" and a text whose digits in front are the place |
| PortIndex.SpellingsAgree | core/include/gnuradio-4.0/BlockModel.hpp:945-1016 | both spellings of a port give its number |
| PortIndex.SameNumberSamePort | core/include/gnuradio-4.0/BlockModel.hpp:945-1016 | two definitions of any kind have one number exactly when they name one port |
| Anchors.DocWriter.Anchor | tools/DocWriter.hpp:123-147 | the search ends with an id no earlier call returned: the slug, or its smallest unused suffix |
| Anchors.AnchorAll | tools/DocWriter.hpp:121-147 | over any sequence of calls no id comes twice and each is what a search without the memory returns |
| Anchors.SearchEnds | tools/DocWriter.hpp:140-146 | the search from the remembered suffix ends where one from the first suffix does |
| Anchors.FirstUnusedIsUnique | tools/DocWriter.hpp:121-122 | the smallest unused suffix is one id |
| Anchors.DocWriter.MakeSlug | tools/DocWriter.hpp:124-139 | the loops fold the text and cut the hyphens at its end |
| Anchors.SlugShape | tools/DocWriter.hpp:124-139 | a slug is words of lower-case letters and digits with single hyphens between them |
| Anchors.SlugIsWords | tools/DocWriter.hpp:124-139 | the slug is the text's unbroken runs of letters and digits, lower-cased and in order, with hyphens between them, or "section" when there are none |
| Anchors.SlugIsStable | tools/DocWriter.hpp:124-139 | a slug is its own slug |
| BoundedQueues.RepliesOverAllRuns | core/src/Block.cpp:103-135 | over every sequence of a block's sends and any room in the ring, each reply is handed on in order, dropped or waiting, the waiting ones are the newest and never more than the capacity |
| BoundedQueues.EventsOverAllRuns | core/src/Runtime.cpp:269-287 | over every sequence of drains and polls, so is each event, with the cap on pending events |
| BoundedQueues.NothingIsLost | core/src/Block.cpp:103-135 | produced equals handed on plus waiting plus dropped |
| BoundedQueues.SendKeepsCapacity | core/src/Block.cpp:113-118 | a send leaves at most the capacity waiting, the newest messages, and drops only when the queue is full |
| BoundedQueues.UnsentGo | core/src/Block.cpp:121-135 | the oldest of what waits are handed on, exactly as many as the least of what waits, the room and the grant, and with room and grant for all nothing waits |
| BoundedQueues.SendGoes | core/src/Block.cpp:103-119 | a send hands on likewise, and the reply too exactly when all has gone and a place is free; the rest waits but for the oldest beyond the capacity |
| BoundedQueues.RoomEmptiesTheQueue | core/src/Block.cpp:121-135 | after any sends, once the ring has room for as many as may wait every reply not dropped is handed on |
| BoundedQueues.PollTakes | core/src/Runtime.cpp:660-675 | a poll takes in the messages, drops the oldest beyond the cap and hands on the oldest of the others, exactly as many as asked for or there are |
| BoundedQueues.ReplyQueue.SendReply | core/src/Block.cpp:103-119 | in place: unsent replies first, then the reply, then the oldest dropped |
| BoundedQueues.ReplyQueue.SendUnsentReplies | core/src/Block.cpp:121-135 | in place, the state after unsent replies have gone |
| BoundedQueues.DrainsCompose | core/src/Runtime.cpp:269-287 | events drained in several batches are the events drained at once |
| BoundedQueues.EventQueue.DrainLocked | core/src/Runtime.cpp:269-287 | the loops append the messages and drop the oldest events beyond the cap |
| BoundedQueues.EventQueue.PollEvents | core/src/Runtime.cpp:660-675 | the events polled are the oldest pending ones |
| Registrations.RegistrationUnits | blocklib_generator/parse_registrations.py:228-259 | an ordered partition of the registrations into non-empty units of distinct names; with a cap, as few as it allows, of sizes that differ by at most one; without, one a registration or one a marker |
| Registrations.ChunkUnits | blocklib_generator/parse_registrations.py:231-245 | the capped chunks: as few as the cap allows, the larger ones first, numbered |
| Registrations.FewestUnits | blocklib_generator/parse_registrations.py:231-245 | no partition within the cap has fewer units than these |
| Registrations.SplitUnits | blocklib_generator/parse_registrations.py:247-259 | one unit a registration, named by its marker and its place in it |
| Registrations.MacroUnits | blocklib_generator/parse_registrations.py:247-259 | one unit a marker, named by it |
| Registrations.CartesianProduct | blocklib_generator/parse_registrations.py:142-147 | the nested loops list the combinations |
| Registrations.CombinationsInOrder | blocklib_generator/parse_registrations.py:142-147 | the n-th combination takes from each group the value at the n-th mixed-radix digits, the last group least significant |
| Registrations.PlaceHasDigits | blocklib_generator/parse_registrations.py:142-147 | each combination of positions has one place |
| Registrations.DigitsHavePlace | blocklib_generator/parse_registrations.py:142-147 | each place has one combination of positions |

## Left out

- `SplitMergeCombine`: its graph has display nodes in place of the split and the sum and is not executable.
- Merges whose left block has three or more outputs and whose right block has two or more do not compile
  (core/include/gnuradio-4.0/BlockMerging.hpp:374-376); the model gives them the meaning of the port lists.
- SIMD evaluation, type lists and settings forwarding of merged blocks; samples are values of one type.
- MergedRuns.NeverStalls: the sample that primes a loop lies on the edge named feedback_loop; the scheduler can choose
  another edge of the loop (core/include/gnuradio-4.0/Graph.hpp:1292-1335). `PrimedElsewhere` has the runs of a loop primed
  one leaf earlier, for a leaf that hands the sample on as it is; other edges and other leaves are not treated.
- Condition variables of the runtime are guards of its steps, `waitFor` and the destructor are not modelled, and the
  first look of an inline stop request is a step of its own.
- Values of settings: conversion keeps a value as it is, where the code stores the member's own type.
- The match predicate of a context with its 64 retries is one function of the stored contexts and the context asked for.
- Blocks without reflectable members, `init`, copies of settings, meta-information, environment
  variables, error texts and the member read-out into a caller's map.
- Public `setChanged(false)`, with which a caller can break the rule that staged values imply `changed()`.
- The check of a tag key's spelling in `setTagCouplings`: an entry is given as refused, as none or as its canonical key.
- Emscripten branches.
- SettingsTransactions.RefusedMembersReturn: no other call comes between the apply and the end of its callback.
- The text, labels and curves of the drawing, the floating-point format of its coordinates, and the lookup of block names.
- GraphPlacement.Layout: coordinates are exact reals.
- Memory orders of the atomic words: each word access is one step.
- JsonWriter.WriteDocument: that a floating-point number prints as a number of the JSON grammar; the text of a literal is
  given, and reads back when it is one.
- The members `member`, `flag`, `count` and `strings` of the JSON writer, which are a key and a value each.
- `generalize` past its candidates: the choice of one that reproduces every instantiation.
- What a loader, a port and a buffer do inside, and the sizes of unconnected optional outputs: in `ReplaceBlock` they are
  functions of the blocks' answers.
- ReplaceBlock.PortsSharedAsBefore: for edges whose ports are the ones they name; an edge not yet connected has none.
- PortIndex.SpellingsAgree: for distinct names free of '#', without which a spelling can name two ports.
- Escaping of document text and table cells.
- Table widths and constant columns of grinfo's printed output.
- The subscription sets of blocks and the dispatch of messages to their callbacks.
- Parsing of registration markers and the files that are written from the units.
- Registrations.RegistrationUnits: markers are numbered in source order, as the parser numbers them.
