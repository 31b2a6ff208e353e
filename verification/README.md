# Control code of the headset firmware, modelled and proved in Dafny

The project models the message-driven control code of a Bluetooth headset
firmware: the rules engine, the feature manager, the device-firmware-upgrade
(DFU) peer channel and DFU domain, the headset state machine with its wired
audio controller, and three small device drivers. It proves what every run of
each of them keeps.

Each core comes in two parts that verify together:

- a specification on values: `datatype` states, one function per handler, and a
  `Step` function over events, with lemmas about every run;
- a class whose fields are the firmware's task data, whose methods change them in
  place with the same branches and loops as the source, and whose `ensures` tie
  the new state to the specification. The DFU and headset classes also carry the
  run invariant as `Valid()`: every handler keeps it, and the delicate ones state
  what it gives them (a delivered start has a success on record, a delivered
  completion is justified).

| files | models |
|---|---|
| `RulesEngine`, `RulesEngineRuns`, `RulesEngineChains`, `RulesEngineReach`, `RulesEngineLimits`, `RulesEngineUndeferred`, `RulesEngineAnswers`, `RuleSet` | the rules engine |
| `FeatureManager`, `FeatureExclusion`, `FeatureLimits`, `FeatureAnswers`, `FeatureTable` | the feature manager |
| `DfuPeer`, `DfuPeerRuns`, `DfuPeerAnswers`, `DfuPeerTask`, `DfuPeerData` | the DFU peer L2CAP channel and its data path |
| `Dfu`, `DfuDomain`, `DfuPair` | the DFU domain, and two devices running its erase handshake |
| `HeadsetSm`, `HeadsetSmRuns`, `HeadsetAnswers`, `HeadsetTask` | the headset state machine and the wired audio controller |
| `Thermistor`, `Ssm2518`, `SpiSram`, `SpiSramDriver` | the drivers |

The modules whose names end in `Answers` say what each operation does, told by
what a client sees: states, records, messages and callbacks. The others say what
every run keeps.

Every lemma turns automatic induction off, so that each inductive proof is the
recursion written in its body.

How the firmware is read:

- A handler is one atomic step. A panic ends the run: functions return `None`,
  methods return `ok == false`.
- What the rest of the system answers (an ACL is up, audio is available, the peer
  address is known, a rule's verdict) is an arbitrary input of the step. A rule
  function may copy parameters in before it answers.
- For the two devices: the upgrade library asks for no wait only when the bank is
  erased, and a successful erase status means that it is.
- A message sent conditionally is a queued message that can be delivered only
  while its lock word is zero; cancelling removes undelivered messages.
- An event mask is the set of its bit positions. Where an integer's width matters
  (int16 gain arithmetic, the 16-bit search counter, 32-bit voltages, 24-bit RAM
  addresses) the wrap-around is written out.

What turned out to be false or conditional, and is stated as such:

- "A rule in progress has all its events active" is not an invariant of every
  table. `ProgressActiveIff` gives the exact condition on the table,
  `SingleEventsActiveIff` what it comes to for one-event rules, and
  `UndeferredActiveIff` the condition for runs that never defer, which the tables
  of `EventsNeverStall` meet.
- Completing a rule for an explicit event mask can reset another rule that is in
  progress; `CompletionWithEventSafeIff` says for exactly which tables, messages
  and masks some run does, and `SetRuleComplete` never does.
- "No two features of a list run together": among lists that agree on the order of
  any two features, it holds in every run exactly for those that are transitive
  and visited top down (`ExclusiveInEveryRun`). Lists that share only their last
  feature, such as the headset's, meet the condition; [a,x], [a,v], [v,x] does
  not.
- The DFU peer channel's connected status is right in every run provided the
  service-record registration is confirmed while there is no connection, and
  that condition is exact (`RegisterConfirmIff`). Several error paths set the
  state to DISCONNECTED without its entry action, so nothing is claimed about a
  return to IDLE except from DISCONNECTING.
- An erase reply does not name the request it answers, and a success for an
  earlier request can let a start through (`LateReplyUnblocks`). After a
  request, only replies sent since are received as success exactly if no success
  was in flight when it was sent (`AnswersLatestIff`).
- A gated hash check is not gated until the peer transfer is first touched, by
  initialisation at the latest (`HashGateFailsIff`).
- The thermistor search is independent of its starting point exactly on
  non-increasing tables, and round trips exactly on decreasing ones.
- The amplifier's gain code is right exactly for gains whose doubled negation is
  an int16. The documentation says that -72 dB and below is mute; the code
  already writes the mute code from -4287/60 dB.
- The RAM driver's peak is recorded at writes only, so it can fall short of the
  largest number outstanding (`PeakIsLargestIff`, `ReadsAreNotRecorded`).

## Model

| member | source | states |
|---|---|---|
| `RulesEngineChains.EventsNeverStall` | adk/src/common/rules_engine/rules_engine.c:116-381 | for tables of one-event rules with distinct messages per event, no always-evaluate rule and no deferral: after every public call of every panic-free run each event's rules read complete*, at most one in progress, not-done* (all not-done if inactive), and every active event that has rules has exactly one in progress |
| `RulesEngineChains.CheckMoves` | adk/src/common/rules_engine/rules_engine.c:174-273 | one pass over such a table keeps that shape and leaves no active event without a rule in progress |
| `RulesEngineChains.FinishKeepsSweeping` | adk/src/common/rules_engine/rules_engine.c:254-265 | a rule that finishes mid-pass, possibly clearing its event and resetting its rules, keeps what the pass maintains for every event |
| `RulesEngineChains.CompletionKeepsShape` | adk/src/common/rules_engine/rules_engine.c:116-156 | completing rules in progress keeps the shape and cannot panic |
| `RulesEngineRuns.AlwaysRulesStayNotDone` | adk/src/common/rules_engine/rules_engine.c:97-108 | in every state a panic-free run reaches, each always-evaluate rule is not done |
| `RulesEngineRuns.ClearedExactly` | adk/src/common/rules_engine/rules_engine.c:116-156 | a status update clears an event if and only if a rule it touched lists it and every overlapping rule listing it is then complete |
| `RulesEngineRuns.CompletionClearsExactly` | adk/src/common/rules_engine/rules_engine.c:360-381 | in every reachable state SetRuleComplete's update cannot panic, clears exactly the events just finished, resets exactly their rules, completes exactly the message's rules in progress and leaves all others alone |
| `RulesEngineRuns.CompletionSparesOthers` | adk/src/common/rules_engine/rules_engine.c:331-378 | it never resets another rule in progress and never clears an event of an always-evaluate rule |
| `RulesEngineRuns.NoEventStaysFinished` | adk/src/common/rules_engine/rules_engine.c:136-153 | for any table, in every state a panic-free run reaches, every listed event has a rule that is not complete |
| `RulesEngineReach.StageReached` | adk/src/common/rules_engine/rules_engine.c:174-381 | for any table and any set of rules each of whose events is also listed outside the set, a run that ends with exactly that set complete, any chosen other rules in progress and the rest deferred |
| `RulesEngineLimits.ClearedIsClearable` | adk/src/common/rules_engine/rules_engine.c:116-156 | whatever event an update clears in a state like that, the table condition Clearable holds: a rule of the message is inside the mask, no always-evaluate rule is, and the rules that must be complete beforehand can be complete together |
| `RulesEngineLimits.CompletionWithEventSafeIff` | adk/src/common/rules_engine/rules_engine.c:366-381 | with an explicit mask, in every state of every run no other rule in progress is reset, if and only if no rule outside the mask lists an event that the completion can clear |
| `RulesEngineLimits.ExposedIsReset` | adk/src/common/rules_engine/rules_engine.c:366-381 | for any table with such a rule, the run that ends in its reset |
| `RulesEngineLimits.CompletionWithEventCanResetProgress` | adk/src/common/rules_engine/rules_engine.c:366-381 | the smallest table, with the run from a new rule set that ends with a rule in progress about to be reset |
| `RulesEngineRuns.PassStartsDisjointRules` | adk/src/common/rules_engine/rules_engine.c:174-273 | for any table and any answers, the rules one pass starts list pairwise disjoint events, all active when the pass began |
| `RulesEngineRuns.PassRecordsEveryStart` | adk/src/common/rules_engine/rules_engine.c:174-273 | a rule in progress after a pass was so before it or is among those started |
| `RulesEngineLimits.ProgressActiveIff` | adk/src/common/rules_engine/rules_engine.c:174-273 | for any table: every rule in progress has all its events active in every state of every run, if and only if no rule that finishes can clear an event of a later rule |
| `RulesEngineLimits.OutrunIsStale` | adk/src/common/rules_engine/rules_engine.c:174-273 | for any table with such a pair of rules, the run that ends with a rule in progress on an inactive event |
| `RulesEngineLimits.SingleEventsActiveIff` | adk/src/common/rules_engine/rules_engine.c:174-273 | for tables of one-event rules that is: if and only if no two rules list the same event |
| `RulesEngineUndeferred.UndeferredActiveIff` | adk/src/common/rules_engine/rules_engine.c:174-273 | for tables of one-event rules and runs that never defer: if and only if the last rule of each event shares its message with no other rule of the event |
| `RulesEngineUndeferred.SharedLastIsStale` | adk/src/common/rules_engine/rules_engine.c:174-273 | the single call that breaks it otherwise |
| `RulesEngineLimits.StartedRuleMayHaveNoActiveEvent` | adk/src/common/rules_engine/rules_engine.c:174-273 | the smallest table on which a pass on its stale copy of the events starts a rule none of whose events is active |
| `RulesEngineRuns.ParametersConserved` | adk/src/common/rules_engine/rules_engine.c:221-391 | over any panic-free run copies equal messages with a body plus one if a buffer is pending; each body is the buffer copied last; no plain message is sent while one is pending |
| `RulesEngineRuns.LawfulLogCounts` | adk/src/common/rules_engine/rules_engine.c:221-245 | the count for any log in which buffers are taken and given up one at a time |
| `RulesEngineAnswers.PassPostsOwnMessages` | adk/src/common/rules_engine/rules_engine.c:206-253 | in any pass over any table one message is posted per rule called that answers to run, in table order, each that rule's own; the rules put in progress are exactly those of them not always evaluated; and the log gains exactly the buffers copied in and these messages, with a body where asked for |
| `RulesEngineAnswers.CallPostsOwnMessages` | adk/src/common/rules_engine/rules_engine.c:322-391 | so over runs: a public call posts exactly the own messages of the rules its one pass called and told to run; the other calls post nothing |
| `RulesEngineAnswers.VisitPosts` | adk/src/common/rules_engine/rules_engine.c:206-253 | one visit posts a message exactly if the rule is called and told to run, and starts it exactly if it is also not always evaluated |
| `RulesEngineAnswers.PassRecorded` | adk/src/common/rules_engine/rules_engine.c:206-253 | what a pass puts on record is, rule by rule, the buffers each called rule copies in and then its message |
| `RulesEngineAnswers.VisitPanicsIff` | adk/src/common/rules_engine/rules_engine.c:97-273 | a visit panics if and only if the rule is called and copies a second buffer in, runs plainly with one pending, runs with parameters without a non-empty one, defers though always evaluated, or finishes with a message that would complete an always-evaluate rule |
| `RulesEngineAnswers.NotifiesIff` | adk/src/common/rules_engine/rules_engine.c:370-378 | clients hear that nothing is in progress exactly when the call completed a rule in progress and no progress-matters rule is left in progress |
| `RulesEngineAnswers.SetEventRaises` | adk/src/common/rules_engine/rules_engine.c:322-328 | SetEvent makes its events active and raises no other; a pass clears none unless a rule finishes |
| `RulesEngineAnswers.ResetEventAnswers` | adk/src/common/rules_engine/rules_engine.c:331-351 | ResetEvent clears exactly its events and resets exactly the rules listing one that are not always evaluated |
| `RuleSets.RuleSet.constructor` | adk/src/common/rules_engine/rules_engine.c:290-311 | a new rule set is the specification's fresh engine |
| `RuleSets.RuleSet.SetRuleStatus` | adk/src/common/rules_engine/rules_engine.c:97-108 | sets one entry of the status array; panics on an always-evaluate rule |
| `RuleSets.RuleSet.CompleteMatching` | adk/src/common/rules_engine/rules_engine.c:122-134 | the first loop marks exactly the rules touched and gathers exactly their events |
| `RuleSets.RuleSet.DropOpenEvents` | adk/src/common/rules_engine/rules_engine.c:136-147 | the second loop removes exactly the events of overlapping rules that are not complete |
| `RuleSets.RuleSet.UpdateRuleStatus` | adk/src/common/rules_engine/rules_engine.c:116-156 | refines the specification's status update, panics included |
| `RuleSets.RuleSet.ResetEvent` | adk/src/common/rules_engine/rules_engine.c:331-351 | clears the events and resets the overlapping rules that are not always evaluated |
| `RuleSets.RuleSet.CopyRunParams` | adk/src/common/rules_engine/rules_engine.c:384-391 | takes a buffer if none is pending, else panics |
| `RuleSets.RuleSet.PostMessage` | adk/src/common/rules_engine/rules_engine.c:221-245 | posts a message and gives the pending buffer up, with the four panics |
| `RuleSets.RuleSet.HandleAction` | adk/src/common/rules_engine/rules_engine.c:208-270 | carries out a rule's answer as specified; a plain run adds exactly the rule's own message to the log, a run with parameters the same message with the pending buffer |
| `RuleSets.RuleSet.RunRules` | adk/src/common/rules_engine/rules_engine.c:174-273 | the index loop with its stale event copy and mid-pass resets refines the specified pass; the messages posted are the own messages of the rules told to run, in table order |
| `RuleSets.RuleSet.SetEvent` | adk/src/common/rules_engine/rules_engine.c:322-328 | refines the specified call |
| `RuleSets.RuleSet.SetRuleWithEventComplete` | adk/src/common/rules_engine/rules_engine.c:366-381 | refines the specified call, with the nothing-in-progress notification |
| `RuleSets.RuleSet.SetRuleComplete` | adk/src/common/rules_engine/rules_engine.c:360-363 | refines the specified call |
| `RuleSets.RuleSet.InProgressRules` | adk/src/common/rules_engine/rules_engine.c:394-412 | true if and only if a progress-matters rule is in progress |
| `FeatureExclusion.RunsStayExclusive` | adk/src/domains/feature_manager/feature_manager.c:91-236 | for transitive lists visited top down, in every run no two features of a list run together and every suspended feature has a higher-priority one running |
| `FeatureLimits.ExclusiveInEveryRun` | adk/src/domains/feature_manager/feature_manager.c:27-236 | every run is exclusive if and only if the lists are transitive and visited top down |
| `FeatureLimits.GapBreaksExclusion` | adk/src/domains/feature_manager/feature_manager.c:136-181 | for any lists with a gap in the order, a run that ends with two features of one list running |
| `FeatureLimits.EarlyVisitBreaksExclusion` | adk/src/domains/feature_manager/feature_manager.c:136-181 | for any lists visited out of order, a run that ends with two features of one list running |
| `FeatureLimits.SharedLastStaysExclusive` | adk/src/domains/feature_manager/feature_manager.c:91-236 | one list, disjoint lists or lists sharing only their last feature: every run is exclusive and leaves nothing suspended without cause |
| `FeatureLimits.SharedLastIsTopDown` | adk/src/domains/feature_manager/feature_manager.h:44-55 | such lists are transitive and visited top down |
| `FeatureLimits.HeadsetStaysExclusive` | headset/src/headset_feature_manager_priority_list.c:13-30 | in every run of the headset's lists the voice assistant never runs with a call or with wired audio |
| `FeatureLimits.OverlapBreaksExclusion` | adk/src/domains/feature_manager/feature_manager.c:136-181 | with [a,x], [a,v], [v,x] a stop of a resumes both x and v |
| `FeatureExclusion.StartKeepsSound` | adk/src/domains/feature_manager/feature_manager.c:205-225 | a start request keeps exclusion, backing and the callbacks invariant |
| `FeatureExclusion.StopKeepsSound` | adk/src/domains/feature_manager/feature_manager.c:227-236 | so does a stop indication, which resumes every feature nothing running is above |
| `FeatureExclusion.RegisterKeepsSound` | adk/src/domains/feature_manager/feature_manager.c:188-203 | so does registration, because it forces both callbacks on a feature below the top of a list |
| `FeatureExclusion.RegistrationIff` | adk/src/domains/feature_manager/feature_manager.c:46-57 | registration panics if and only if the feature is registered already or lacks a callback while some list puts it below another; otherwise it adds exactly that idle client |
| `FeatureAnswers.StartAnswers` | adk/src/domains/feature_manager/feature_manager.c:205-225 | for any lists: a start is refused, and changes nothing, if and only if a feature above runs; otherwise the feature runs, exactly the running features below it that can be suspended are, and all others stay as they were |
| `FeatureAnswers.StopAnswers` | adk/src/domains/feature_manager/feature_manager.c:227-236 | for any lists: only suspended features below are resumed, all others stay as they were, and none that can be resumed is left suspended without a feature above it running |
| `FeatureExclusion.HigherRunningIsAbove` | adk/src/domains/feature_manager/feature_manager.c:91-116 | the check by list positions is the order "some list puts it before" |
| `FeatureExclusion.LowerIsBelow` | adk/src/domains/feature_manager/feature_manager.c:161-181 | the features visited are exactly those below in some list |
| `FeatureManager.IndexFrom` | adk/src/domains/feature_manager/feature_manager.c:59-73 | the first position of a feature; not-found only if it is absent, for lists of at most 255 |
| `FeatureTables.FeatureTable.GetIndex` | adk/src/domains/feature_manager/feature_manager.c:59-73 | the loop finds that position |
| `FeatureTables.FeatureTable.IsHighestPriorityOnAllLists` | adk/src/domains/feature_manager/feature_manager.c:27-44 | true if and only if every list puts the feature first or lacks it |
| `FeatureTables.FeatureTable.IsHigherPriorityFeatureRunning` | adk/src/domains/feature_manager/feature_manager.c:91-116 | the nested loops decide whether a feature listed before runs |
| `FeatureTables.FeatureTable.ActOnClient` | adk/src/domains/feature_manager/feature_manager.c:118-159 | suspends or resumes one client as specified |
| `FeatureTables.FeatureTable.PerformActionOnLowerPriorityFeatures` | adk/src/domains/feature_manager/feature_manager.c:161-181 | the nested loops visit the lower features list by list, each visit seeing the effects of those before |
| `FeatureTables.FeatureTable.Register` | adk/src/domains/feature_manager/feature_manager.c:188-203 | fills the handle or panics as specified |
| `FeatureTables.FeatureTable.StartFeatureRequest` | adk/src/domains/feature_manager/feature_manager.c:205-225 | grants and suspends as specified |
| `FeatureTables.FeatureTable.StopFeatureIndication` | adk/src/domains/feature_manager/feature_manager.c:227-236 | resumes as specified |
| `FeatureTables.FeatureTable.CanFeatureStart` | adk/src/domains/feature_manager/feature_manager.c:238-246 | the answer a start request would give |
| `DfuPeerRuns.EveryRunConsistent` | adk/src/domains/dfu/dfu_peer.c:141-284 | in every run a DFU_PEER_DISCONNECTED lies between any two DFU_PEER_STARTED; the library's connected status is true exactly since an unanswered start, true in CONNECTED, false in IDLE and while connecting |
| `DfuPeerRuns.RegisterConfirmIff` | adk/src/domains/dfu/dfu_peer.c:670-689 | from any consistent state every run after a registration confirm keeps starts and disconnections alternating, if and only if the library is not connected when it comes |
| `DfuPeerRuns.LateConfirmBreaks` | adk/src/domains/dfu/dfu_peer.c:670-689 | after a confirm that comes while the library is connected, the next accepted connection is a second start with no disconnection between |
| `DfuPeerRuns.ConnectedReached` | adk/src/domains/dfu/dfu_peer.c:781-889 | registering and accepting one connection reaches such a state |
| `DfuPeerRuns.DisconnectingLeavesForIdle` | adk/src/domains/dfu/dfu_peer.c:88-90 | DISCONNECTING is left only by the disconnect confirm, landing in IDLE, whatever else happens |
| `DfuPeerRuns.StartupUsesRetry` | adk/src/domains/dfu/dfu_peer.c:447-555 | a startup request handled during an attempt ends it or strictly decreases the retries left, at most 32, silent commit on or off |
| `DfuPeerRuns.OthersKeepRetries` | adk/src/domains/dfu/dfu_peer.c:720-777 | every other event but a new connect request leaves the attempt or its retries alone |
| `DfuPeerRuns.AttemptHandlesFewStartups` | adk/src/domains/dfu/dfu_peer.c:447-555 | any run inside one attempt handles no more startup requests than it uses retries |
| `DfuPeerRuns.AttemptsTerminate` | adk/src/domains/dfu/dfu_peer.c:447-555 | after any run of deliverable events, any attempt handles at most 32 startup requests, silent commit on or off |
| `DfuPeerAnswers.LinkAnswers` | adk/src/domains/dfu/dfu_peer.c:1281-1309 | from IDLE with the peer known a link request leaves one more deliverable startup request; from any other state the library is told of the failure; the counters are reset |
| `DfuPeerAnswers.OutgoingConnects` | adk/src/domains/dfu/dfu_peer.c:447-935 | from any IDLE state with the peer known and the ACL up, link request, startups, search result and connect confirm end CONNECTED, with the library and clients told exactly that |
| `DfuPeerAnswers.AttemptsEndTold` | adk/src/domains/dfu/dfu_peer.c:447-981 | a connection attempt that ends is connected and announced, is being disconnected, or the library is told it failed, unless a silent commit is on |
| `DfuPeerAnswers.StartupWaits` | adk/src/domains/dfu/dfu_peer.c:504-555 | what a startup request does in every state while the ACL is down or no attempt is under way |
| `DfuPeerAnswers.StartupProceeds` | adk/src/domains/dfu/dfu_peer.c:459-503 | with the ACL up: the search begins or is tried again up to ten times, and the channel falls back if the link is neither ours nor to the stored peer |
| `DfuPeerAnswers.SearchAnswers` | adk/src/domains/dfu/dfu_peer.c:720-777 | what each search result leads to, and nothing outside the search |
| `DfuPeerAnswers.ConnectIndAnswers` | adk/src/domains/dfu/dfu_peer.c:781-846 | only a paired peer is accepted, only from IDLE; another PSM is a failure |
| `DfuPeerAnswers.ConnectCfmAnswers` | adk/src/domains/dfu/dfu_peer.c:852-935 | what each confirm leads to, with the role taken and everything told |
| `DfuPeerAnswers.DisconnectAnswers` | adk/src/domains/dfu/dfu_peer.c:939-981 | an indication for the channel's own sink, or the confirm while disconnecting, makes the channel fall back with its role's own farewell; others change nothing |
| `DfuPeerAnswers.DisconnectRequestAnswers` | adk/src/domains/dfu/dfu_peer.c:1316-1334 | a disconnect request acts exactly in the five states with a link or an attempt |
| `DfuPeerTasks.DfuPeerTask.SetState` | adk/src/domains/dfu/dfu_peer.c:373-416 | sets the state and runs its entry action as specified |
| `DfuPeerTasks.DfuPeerTask.OnConnected` | adk/src/domains/dfu/dfu_peer.c:141-217 | entry to CONNECTED as specified |
| `DfuPeerTasks.DfuPeerTask.OnDisconnected` | adk/src/domains/dfu/dfu_peer.c:221-284 | entry to DISCONNECTED as specified, restart for a silent commit included |
| `DfuPeerTasks.DfuPeerTask.HandleInternalStartupRequest` | adk/src/domains/dfu/dfu_peer.c:447-555 | refines the specified startup, queue of requests included |
| `DfuPeerTasks.DfuPeerTask.HandleSdpServiceSearchAttributeCfm` | adk/src/domains/dfu/dfu_peer.c:720-777 | refines the specified search result |
| `DfuPeerTasks.DfuPeerTask.HandleMessage` | adk/src/domains/dfu/dfu_peer.c:1137-1245 | refines the specified dispatch, which drops messages while disconnecting, and keeps the run invariants if the message is lawful |
| `DfuPeerTasks.DfuPeerTask.HandleEvent` | adk/src/domains/dfu/dfu_peer.c:1137-1334 | any message or outside call takes the specified step and keeps the run invariants; a startup request during an attempt ends it or uses a retry; disconnecting ends only with the confirm, in IDLE |
| `DfuPeerTasks.DfuPeerTask.InitiateLinkToPeer` | adk/src/domains/dfu/dfu_peer.c:1281-1309 | refines the specified link request; from IDLE with the peer known it posts one startup request for that peer |
| `DfuPeerTasks.DfuPeerTask.InitiatePeerLinkDisconnection` | adk/src/domains/dfu/dfu_peer.c:1316-1334 | refines the specified disconnection |
| `DfuPeerData.DeliveredOnceInOrder` | adk/src/domains/dfu/dfu_peer.c:1043-1128 | in every run what arrived is what was handed over followed by what is still owed: each PDU once, in order |
| `DfuPeerData.PeriodDeliversInOrder` | adk/src/domains/dfu/dfu_peer.c:1043-1128 | from the start of a connected period the library holds an initial part of what arrived |
| `DfuPeerData.StopAndWait` | adk/src/domains/dfu/dfu_peer.c:1060-1072 | the secondary hands over at most one PDU at a time, and only with none unconfirmed |
| `DfuPeerData.WaitsForConfirm` | adk/src/domains/dfu/dfu_peer.c:1060-1072 | while a PDU is being processed no run without a confirm hands over another |
| `DfuPeerData.NothingWaits` | adk/src/domains/dfu/dfu_peer.c:1043-1089 | after a data event the source is empty or the secondary is processing |
| `DfuPeerData.HandsOver` | adk/src/domains/dfu/dfu_peer.c:1043-1128 | exactly what each data event hands over and leaves, on either role |
| `DfuPeerData.NotInUseHandsNothing` | adk/src/domains/dfu/dfu_peer.c:1060-1072 | with the transport not in use the secondary is handed nothing |
| `DfuPeerData.ConfirmSizeIff` | adk/src/domains/dfu/dfu_peer.c:1111-1128 | a confirm of any size keeps the order if and only if it is the size of the PDU in process, or that PDU is the last one waiting and the size is larger |
| `DfuPeerData.DataTask.L2capProcessData` | adk/src/domains/dfu/dfu_peer.c:1043-1073 | the draining loop refines handing over the whole source; the secondary offers one PDU |
| `DfuPeerData.DataTask.HandleMMD` | adk/src/domains/dfu/dfu_peer.c:1077-1089 | refines the specified data indication |
| `DfuPeerData.DataTask.HandleTransportDataCfm` | adk/src/domains/dfu/dfu_peer.c:1111-1128 | refines the specified confirm |
| `Dfu.StartsAndHashesAreGated` | adk/src/domains/dfu/dfu.c:996-1669 | in every run of one device: a start is notified after an erase request only with a success reply since the latest request, and was queued with no failure reply or end of data since; after initialisation a gated hash check starts only if the last change of the peer transfer was its end |
| `Dfu.EveryRunTracked` | adk/src/domains/dfu/dfu.c:1533-1657 | the lock words and queues agree with the log in every run |
| `Dfu.StepTracked` | adk/src/domains/dfu/dfu.c:1533-1657 | every event keeps that agreement |
| `Dfu.EraseLogExact` | adk/src/domains/dfu/dfu.c:996-1122 | a device asks exactly as unblocked primary, answers exactly what it need not wait for or cannot serve and the end of its own erase, and takes note of replies exactly as primary |
| `Dfu.StartLogExact` | adk/src/domains/dfu/dfu.c:1533-1625 | starts are queued on the primary and notified at once on the secondary, notified when delivered, and begin the peer transfer exactly when asked to |
| `Dfu.TransferLogExact` | adk/src/domains/dfu/dfu.c:1652-1657 | each entry about the peer transfer and hash checks is logged by exactly its own event |
| `Dfu.QueuesExact` | adk/src/domains/dfu/dfu.c:1533-1596 | what is added to and taken from the two message queues, by which event, and that nothing else touches them |
| `Dfu.EraseLockExact` | adk/src/domains/dfu/dfu.c:1016-1095 | the erase lock is closed exactly by a request sent and opened exactly by a success reply to the primary |
| `Dfu.UngatedHashNeverWaits` | adk/src/domains/dfu/dfu.c:679-683 | an ungated hash check is deliverable as soon as it is requested |
| `Dfu.HashGateFailsIff` | adk/src/domains/dfu/dfu.c:669-685 | in every state of every run a queued gated check can be delivered although the peer transfer is not over, if and only if the transfer has never been begun, ended, aborted, completed or initialised |
| `Dfu.UninitialisedHashIsNotGated` | adk/src/domains/dfu/dfu.c:669-685 | before initialisation the zeroed lock word lets a gated hash check through |
| `DfuPair.HandshakeSafe` | adk/src/domains/dfu/dfu.c:996-1122 | in every run of two devices over a lossy ordered channel: the secondary reports success only from an erased bank; the replies received are, in order, among those sent; and a start notified after a request was let through by a success received since the latest request, which is a named reply sent from an erased bank |
| `DfuPair.AnswersLatestIff` | adk/src/domains/dfu/dfu.c:1016-1095 | whenever the primary asks, in any reachable state: every success it receives in every continuation was sent after that request, if and only if no success was in flight when it asked |
| `DfuPair.StartAnswersLatest` | adk/src/domains/dfu/dfu.c:1605-1625 | with none in flight, every start notified after that request was let through by a reply sent after it from an erased bank |
| `DfuPair.SecondaryAnswers` | adk/src/domains/dfu/dfu.c:1097-1122 | a request arriving where the bank is erased, or cannot be prepared, and an erase that finishes, put exactly one reply in flight with that result; otherwise none is sent |
| `DfuPair.HandshakeCompletes` | adk/src/domains/dfu/dfu.c:996-1625 | from any state with an erased bank and nothing in flight: queue, ask, answer, hear, and the start is notified |
| `DfuPair.LateReplyUnblocks` | adk/src/domains/dfu/dfu.c:1016-1036 | that success may answer an earlier request, with the bank written since: the run |
| `DfuDomains.DfuDomain.PeerEraseStartTx` | adk/src/domains/dfu/dfu.c:1071-1095 | after a request no start can be delivered and no success since it is on record, whatever was received before; keeps the run invariant |
| `DfuDomains.DfuDomain.PeerEraseStartRx` | adk/src/domains/dfu/dfu.c:1097-1122 | the secondary answers at once, with the result of the preparation, exactly if it need not wait or cannot serve; keeps the run invariant |
| `DfuDomains.DfuDomain.PeerEraseCompletedTx` | adk/src/domains/dfu/dfu.c:996-1014 | exactly the secondary replies, with the result; everything that can be delivered, and the record of replies and transfer, is as it was; keeps the run invariant |
| `DfuDomains.DfuDomain.PeerEraseCompletedRx` | adk/src/domains/dfu/dfu.c:1016-1069 | after a success every queued start can be delivered with a success on record; after a failure no queued start is live or deliverable; keeps the run invariant |
| `DfuDomains.DfuDomain.NotifyEarlyErase` | adk/src/domains/dfu/dfu.c:516-540 | asks the peer to erase only as an unblocked primary |
| `DfuDomains.DfuDomain.HandleStartDataInd` | adk/src/domains/dfu/dfu.c:1533-1554 | on the primary the start is queued and live, and cannot be delivered while a request lacks a success; keeps the run invariant |
| `DfuDomains.DfuDomain.HandleEndDataInd` | adk/src/domains/dfu/dfu.c:1557-1596 | no start queued before is live or deliverable any more, and after an abort no gated hash check is deliverable; keeps the run invariant |
| `DfuDomains.DfuDomain.HandleStartOnPeerEraseDone` | adk/src/domains/dfu/dfu.c:1605-1625 | when a start is delivered, a success since the latest request is on record if there was a request, and the start was not called off since it was queued |
| `DfuDomains.DfuDomain.HandleHashCheckRequest` | adk/src/domains/dfu/dfu.c:669-685 | once the peer task is initialised, the check just queued while blocked or primary is deliverable if and only if the peer transfer is over |
| `DfuDomains.DfuDomain.HandleContinueHashCheck` | adk/src/domains/dfu/dfu.c:1652-1657 | when a gated check is delivered after initialisation, the last change of the peer transfer was its end |
| `DfuDomains.DfuDomain.HandlePeerInit` | adk/src/domains/dfu/dfu_peer.c:1262-1275 | from then on the transfer is not over and no gated hash check is deliverable; keeps the run invariant |
| `DfuDomains.DfuDomain.HandlePeerEndDataTransfer` | adk/src/domains/dfu/dfu_peer.c:1215-1217 | the transfer is over and every queued hash check is deliverable; keeps the run invariant |
| `DfuDomains.DfuDomain.HandleStatusDone` | adk/src/domains/dfu/dfu.c:416-431 | the transfer is not over and no gated hash check is deliverable; keeps the run invariant |
| `DfuDomains.DfuDomain.HandleEvent` | adk/src/domains/dfu/dfu.c:1533-1669 | any event that can be delivered takes the specified step and keeps the run invariant |
| `HeadsetSmRuns.EveryDeletionJustified` | headset/src/headset_sm.c:390-498 | in every run handsets are deleted only if since the latest request it found none connected or an indication left none connected |
| `HeadsetSmRuns.DeletionGuarded` | headset/src/headset_sm.c:390-498 | a queued completion is held by the lock exactly while deletion is not justified |
| `HeadsetSmRuns.TimedOutRequestNeverDeletes` | headset/src/headset_sm.c:489-498 | a request whose timer fires with the lock held never deletes, for any interleaving |
| `HeadsetSmRuns.RunPausedWhileWired` | headset/src/headset_sm.c:371-379 | in every run a paused wired controller has recorded wired status TRUE |
| `HeadsetSmRuns.ResumeNeverLosesRemoval` | headset/src/headset_wired_audio_controller.c:57-83 | resuming from a pause cannot panic, never takes the connected branch, and leaves the headset not busy if wired audio has gone |
| `HeadsetSmRuns.ResumeWithoutRecordWouldDropPause` | headset/src/headset_wired_audio_controller.c:183-195 | without that record a resume would pause and at once drop the pause |
| `HeadsetAnswers.InsertionAnswers` | headset/src/headset_wired_audio_controller.c:97-114 | an insertion while not paused takes a headset that is powering on, idle or busy: busy, paused, TRUE on record, Bluetooth stopped; in every other state it changes nothing |
| `HeadsetAnswers.RemovalAnswers` | headset/src/headset_wired_audio_controller.c:116-140 | a removal while not paused with nothing left takes busy to idle and restarts Bluetooth, and otherwise changes nothing |
| `HeadsetAnswers.OtherwiseIgnored` | headset/src/headset_wired_audio_controller.c:91-144 | while paused, and for USB events that do not concern it, the controller does nothing |
| `HeadsetAnswers.StopCfmAnswers` | headset/src/headset_sm.c:1647-1664 | the topology confirm finishes a power-off, resumes a paused controller, and otherwise changes nothing |
| `HeadsetAnswers.WireSession` | headset/src/headset_sm.c:895-914 | insertion, stop confirm and removal take any idle headset to the wire and back, Bluetooth stopped and restarted once each |
| `HeadsetAnswers.ChangeAnswers` | headset/src/headset_sm.c:1008-1118 | a change of state panics exactly out of a factory reset or into the null state; what it does to Bluetooth, the pause, the record and the timers, and that nothing else changes |
| `HeadsetAnswers.RequestAnswers` | headset/src/headset_sm.c:390-412 | a request is made exactly when idle or busy: numbered, its completion queued, its timer started, the lock set exactly with a handset connected |
| `HeadsetAnswers.CompletionAnswers` | headset/src/headset_sm.c:472-485 | a completion deletes for the oldest request and cancels the oldest timer |
| `HeadsetAnswers.IndicationAnswers` | headset/src/headset_sm.c:1578-1595 | an indication only opens a held lock, and only with no handset left |
| `HeadsetAnswers.TimerAnswers` | headset/src/headset_sm.c:489-498 | a timer takes itself off, and with the lock held opens it and drops every queued completion |
| `HeadsetAnswers.DeletionHappens` | headset/src/headset_sm.c:390-498 | a deletion asked for with a handset connected happens once it is gone |
| `HeadsetTasks.HeadsetTask.ControllerDisable` | headset/src/headset_wired_audio_controller.c:168-180 | records the wired status and pauses |
| `HeadsetTasks.HeadsetTask.ControllerEnable` | headset/src/headset_wired_audio_controller.c:183-195 | refines the specified resume |
| `HeadsetTasks.HeadsetTask.HandleCurrentWiredStatus` | headset/src/headset_wired_audio_controller.c:57-83 | reports a status that differs from the recorded one |
| `HeadsetTasks.HeadsetTask.ControllerHandleMessage` | headset/src/headset_wired_audio_controller.c:86-145 | refines the specified wired and USB events; an insertion takes the headset and a removal with nothing left gives Bluetooth back, by state and log; keeps the run invariants |
| `HeadsetTasks.HeadsetTask.ChangeState` | headset/src/headset_sm.c:1008-1118 | exit action, new state, entry action, with the panics |
| `HeadsetTasks.HeadsetTask.EnterBusy` | headset/src/headset_sm.c:895-903 | with wired audio, pauses the controller and stops Bluetooth |
| `HeadsetTasks.HeadsetTask.ExitBusy` | headset/src/headset_sm.c:907-914 | without wired audio, restarts Bluetooth |
| `HeadsetTasks.HeadsetTask.WiredAudioConnected` | headset/src/headset_sm.c:1666-1685 | moves to busy from powering on, idle or busy |
| `HeadsetTasks.HeadsetTask.WiredAudioDisconnected` | headset/src/headset_sm.c:1687-1704 | moves from busy to idle |
| `HeadsetTasks.HeadsetTask.HandleTopologyStopCfm` | headset/src/headset_sm.c:1647-1664 | powers off or resumes; a resume from a pause cannot panic, ends the pause and leaves the headset not busy if wired audio has gone; keeps the run invariants |
| `HeadsetTasks.HeadsetTask.InitiateLinkDisconnection` | headset/src/headset_sm.c:390-412 | the request is live, and its completion is deliverable if and only if no handset was connected; keeps the run invariants |
| `HeadsetTasks.HeadsetTask.HandleInternalDeleteHandsets` | headset/src/headset_sm.c:1176-1194 | only when idle or busy |
| `HeadsetTasks.HeadsetTask.UpdateDisconnectingLink` | headset/src/headset_sm.c:1578-1595 | deletion is then justified if and only if no handset is left or it was before, and a waiting completion is deliverable if and only if it is; keeps the run invariants |
| `HeadsetTasks.HeadsetTask.HandleLinkDisconnectionComplete` | headset/src/headset_sm.c:472-485 | when a completion is delivered, deletion is justified since the latest request and no timer has ended its own request |
| `HeadsetTasks.HeadsetTask.LinkDisconnectionTimeout` | headset/src/headset_sm.c:489-498 | with the lock held, no request made so far is live or deliverable any more; otherwise every one is as it was; keeps the run invariants |
| `HeadsetTasks.HeadsetTask.HandleEvent` | headset/src/headset_sm.c:1008-1704 | any event that can be delivered takes the specified step, with its panics, and keeps the run invariants |
| `Thermistor.HistoryIrrelevantIff` | headset/src/peripherals/thermistor.c:54-95 | the search result is independent of its starting point for every reading if and only if the table is non-increasing |
| `Thermistor.SearchIsPlain` | headset/src/peripherals/thermistor.c:54-95 | on such a table the search from anywhere is the least index at or below the reading, else the last |
| `Thermistor.ColderAtHigherVoltage` | headset/src/peripherals/thermistor.c:54-95 | the plain result is antitone in voltage |
| `Thermistor.RoundTrip` | headset/src/peripherals/thermistor.c:39-95 | to millivolts and back from any starting point is the clamped temperature, on decreasing tables |
| `Thermistor.RoundTripIff` | headset/src/peripherals/thermistor.c:39-95 | every entry is found again from every starting point if and only if the table decreases |
| `Thermistor.HistoryForgotten` | headset/src/peripherals/thermistor.c:102-129 | once the probe has been read with a reference, the temperature does not depend on the one before the run |
| `Thermistor.MeasureAnswers` | headset/src/peripherals/thermistor.c:102-129 | a new temperature exactly for a probe reading with a reference, and then the least entry at or below its millivolts; only a reference reading changes the reference |
| `Thermistor.MillivoltsIff` | headset/src/peripherals/thermistor.c:116-117 | the probe's voltage is the whole quotient constant * reading / reference if and only if it fits in 16 bits |
| `Thermistor.ClampAnswers` | headset/src/peripherals/thermistor.c:32-37 | clamping keeps a temperature of the table and moves any other to the nearer end |
| `Thermistor.ThermistorDriver.DegreesCelsiusToMillivolts` | headset/src/peripherals/thermistor.c:32-43 | the entry of the clamped temperature, from which that temperature is found again |
| `Thermistor.ThermistorDriver.MillivoltsToDegreesCelsius` | headset/src/peripherals/thermistor.c:54-95 | the two loops are the specified search, and on a non-increasing table the plain one |
| `Thermistor.ThermistorDriver.HandleMeasurement` | headset/src/peripherals/thermistor.c:102-129 | refines the specified measurement, with a zero reference as an error |
| `Ssm2518.RegistersFollowLastGain` | headset/src/peripherals/audio_i2s_SSM2518.c:180-328 | after any sequence of gain calls each channel already set holds the code written for its last gain, which is that gain's nearest step clamped if and only if the arithmetic fits, its mute bit set if and only if the code is 0xff |
| `Ssm2518.MasterNeverAlone` | headset/src/peripherals/audio_i2s_SSM2518.c:264-328 | after any sequence of calls that the arithmetic can hold, the master mute is on only with both channel mutes |
| `Ssm2518.MasterAfterBoth` | headset/src/peripherals/audio_i2s_SSM2518.c:303-328 | exactly when setting both channels leaves the master mute on |
| `Ssm2518.ChannelsIndependent` | headset/src/peripherals/audio_i2s_SSM2518.c:180-292 | setting one channel leaves the other's volume and mute bit alone |
| `Ssm2518.ChannelRegisters` | headset/src/peripherals/audio_i2s_SSM2518.c:191-289 | which volume register and which mute bit each of the four channels writes, and that an unknown one writes neither |
| `Ssm2518.CodeIsNearestStep` | headset/src/peripherals/audio_i2s_SSM2518.c:220-258 | the code is 0x40 plus the nearest step of -2 * gain / 45, capped to a byte |
| `Ssm2518.NearestIsUnique` | headset/src/peripherals/audio_i2s_SSM2518.c:228-239 | rounding has no ties and errs by less than half a step |
| `Ssm2518.ScaledIff` | headset/src/peripherals/audio_i2s_SSM2518.c:220-258 | the int16 arithmetic gives the code of the gain if and only if the doubled negation fits in int16 |
| `Ssm2518.CodeAntitone` | headset/src/peripherals/audio_i2s_SSM2518.c:220-258 | a louder gain never has a higher code |
| `Ssm2518.CodeLandmarks` | headset/src/peripherals/audio_i2s_SSM2518.c:211-258 | full gain, unity and the exact mute threshold |
| `Ssm2518.Amplifier.constructor` | headset/src/peripherals/audio_i2s_SSM2518.c:131-135 | initialisation mutes both channels and the master |
| `Ssm2518.Amplifier.ScaleGain` | headset/src/peripherals/audio_i2s_SSM2518.c:220-258 | the int16 steps (negate, double, divide with rounding, offset, clamp) give the code that ScaledIff characterises |
| `Ssm2518.Amplifier.SetChannelGain` | headset/src/peripherals/audio_i2s_SSM2518.c:180-292 | the registers after setting one channel; an unknown channel changes nothing |
| `Ssm2518.Amplifier.SetGain` | headset/src/peripherals/audio_i2s_SSM2518.c:303-328 | the registers after setting both |
| `SpiSram.EveryRunBalances` | headset/src/peripherals/spi_sram_23LC1024.c:257-366 | in every run the count is the list's length, accepted transfers are the completed and the listed ones with none lost or doubled, the list keeps acceptance order, and the callbacks made are those of completed transfers that have one, once each, in completion order |
| `SpiSram.AcceptedAsSubmitted` | headset/src/peripherals/spi_sram_23LC1024.c:257-333 | in every run the accepted transfers are, in order, those submitted and taken, each with its caller's own handle, callback, context, command byte and address |
| `SpiSram.CallersHearOnce` | headset/src/peripherals/spi_sram_23LC1024.c:354-358 | in every run the callbacks made are exactly those the callers gave for their completed transfers, each once, with its own context and result |
| `SpiSram.OthersChangeNothing` | headset/src/peripherals/spi_sram_23LC1024.c:276-281 | a refused transfer and any other message change nothing |
| `SpiSram.CompletionFinishesItsOwn` | headset/src/peripherals/spi_sram_23LC1024.c:335-366 | with handles not reused while outstanding, a completion removes exactly its own transfer, keeps the order of the rest and makes exactly its callback |
| `SpiSram.FinishesOwnIff` | headset/src/peripherals/spi_sram_23LC1024.c:346-365 | for any handles, a completion finishes its own transfer if and only if no later outstanding one has the same handle |
| `SpiSram.HandlesStayDistinct` | headset/src/peripherals/spi_sram_23LC1024.c:257-366 | fresh handles keep the listed handles distinct |
| `SpiSram.UnknownHandleIgnored` | headset/src/peripherals/spi_sram_23LC1024.c:346-365 | a completion changes nothing if and only if no listed transfer has its handle |
| `SpiSram.PeakRecorded` | headset/src/peripherals/spi_sram_23LC1024.c:284-289 | the recorded peak is the largest number outstanding just after an accepted write |
| `SpiSram.PeakIsLargestIff` | headset/src/peripherals/spi_sram_23LC1024.c:284-330 | it is the largest number ever outstanding if and only if that number was outstanding just after an accepted write, or was zero |
| `SpiSram.ReadsAreNotRecorded` | headset/src/peripherals/spi_sram_23LC1024.c:329-330 | a read raises the count but not the peak |
| `SpiSram.HeaderCarriesOffset` | headset/src/peripherals/spi_sram_23LC1024.c:269-272 | the address bytes give back the offset if and only if it fits in 24 bits |
| `SpiSramDrivers.SpiSramDriver.Write` | headset/src/peripherals/spi_sram_23LC1024.c:257-300 | links an accepted write in front with the caller's callback and context and the handle given; a refused one changes nothing |
| `SpiSramDrivers.SpiSramDriver.Read` | headset/src/peripherals/spi_sram_23LC1024.c:302-333 | links an accepted read in front with the caller's callback and context and the handle given; a refused one changes nothing |
| `SpiSramDrivers.SpiSramDriver.Search` | headset/src/peripherals/spi_sram_23LC1024.c:346-364 | walking the links finds the first node with the handle |
| `SpiSramDrivers.SpiSramDriver.Unlink` | headset/src/peripherals/spi_sram_23LC1024.c:350-353 | takes exactly that node out of the linked list and changes no node's record |
| `SpiSramDrivers.SpiSramDriver.BitserialMsgHandler` | headset/src/peripherals/spi_sram_23LC1024.c:335-366 | refines the specified completion and leaves the other nodes linked in order |

## Left out

- Bluetooth, SDP, L2CAP, upgrade, power and USB libraries: their answers are arbitrary inputs and what they are told is a log.
- Memory: allocation failure and freeing are not modelled; the rule set, handles and transfers are always allocated.
- Callbacks do not re-enter the module that calls them, except that a rule may copy parameters in.
- Rules engine: registration of clients to be notified, destruction of a rule set, and flag words that combine both flags beyond their comparison as whole words.
- `FeatureLimits.ExclusiveInEveryRun`: stated for lists that agree on the order of any two features; two features ordered both ways by different lists, as in [a,b] and [b,a], are not covered although some such lists are kept exclusive.
- Feature manager: repeated entries in a list and lists of more than 255 features; SetPriorities is the choice of the lists.
- Feature manager clients that run without a granted start or a resume, or stop without saying so.
- DFU peer: parsing of the SDP record (its outcome is an input), ACL locks, the send path, link policy and handover marshalling.
- `DfuPeerData.PeriodDeliversInOrder`: one connected period with a fixed role that begins with no PDU in process, as the flag is not reset on disconnection.
- DFU domain: reboot and commit handling, peer profiles to connect, silent commit, the operations not tied to the erase handshake or the hash check.
- `Dfu.StartsAndHashesAreGated`: one device's own messages; what an aborted upgrade makes the library send next arrives as a later event.
- Headset state machine: power, pairing, idle and limbo timers, the Gaia settings store, and product-specific ENABLE_APP branches, none of which touch the disconnect lock or the pause.
- `HeadsetSmRuns.ResumeNeverLosesRemoval`: not while powering off, when the topology confirm completes the power-off instead of resuming.
- `Thermistor.ThermistorDriver.HandleMeasurement`: PIO and ADC set-up and the periodic timer are not modelled.
- SSM2518 initialisation of clocks and sample rates, shutdown, and I2C failures, which panic.
- SPI RAM: pin set-up, mode register, data payload and the bit-serial transfer itself.
- Other modules of the repository (state_machine, context_framework, focus, AAC codec selection, configuration tables, Python tools): lookups, registries, fixed data or tooling.
