# tdns-mp: verified models of the multi-provider agent and combiner

This project models the stateful cores of the multi-provider agent and its
combiner in Dafny, and proves what they keep over every run.
`dafny verify dfyconfig.toml` checks the whole project.

An agent hands its combiner, zone by zone, the instructions it is to act by, and
lets no update out before the combiner has taken them. A combiner merges what the
agents contribute, judged by the providers it was handed, and projects it onto the
zone it serves by edits and a list of cleanups. An agent asks its peers for the
state of the zones they share until the answers are complete. Around these sit
small ledgers: the newest-wins guard of REPLACE, the owed syncs, the book of
look-ups, the edit tables and the cache of verdicts.

| file | what it has |
|---|---|
| Collections, Names, Serial, Wrappers | sets and sequences; the order of strings; serial number arithmetic (section 3.2 of RFC 1982); Option |
| Handover | the hand-over and the order it is taken in |
| ActingStore | the combiner's store of hand-overs and its table |
| HandoverSteps, HandoverTracker | the agent's tracker: its lock-held regions as functions, and the object with its loops |
| HandoverLife | what each step does to one zone's hand-over and its updates, by the fields; nothing wanted is left unsent; a forget is told until it is confirmed |
| HandoverProtocol | both parties and a network that loses, repeats, delays and reorders |
| GatedUpdates, QueueOrder | where every update is, from its arrival to its final word; the order they come onto the queue in |
| Csync | which of several CSYNC records is served |
| RecordLists, ServedLists | the loops over record lists: merge, comparison, diff; a combine of one RRset over lists, and the sets it is in CombinerZone |
| Contributions, Projection, ProjectionLimits, CombinerZone | the contributions, their merge and snapshot; the projection and its invariant; where that ends; the object with its loops |
| ReplaceOrder | the guard of REPLACE at the agent and at the combiner |
| CatchUp, CatchUpEntries, CatchUpTracker | the requests for the zones' state: steps and invariants; the life of one entry by its fields; the object with its loops |
| OwedSync, LookupBook, EditTables, Verdicts | the ledgers |

Each lock-held region of the program is one step; a combine, which holds no lock that
a change of contributions takes, is three: its copy, its taking of the cleanups and
its batch. Where an object is updated in place there is a class whose methods have the
program's loops and are proved equal to a function of the old state; what the program
promises is then proved of those functions over runs. `enqueue`, the database and the zone's batch may fail at any
step; the network, the clock and the random names are parameters of the steps.

## What was found

Some promises do not hold on every input. For each there is a lemma with the run
that shows it and one that says exactly when the promise holds.

- A removal that falls between a combine's copy and its taking of the cleanups is
  lost: the combine takes the removal's cleanup, finds the type contributed in its copy
  and drops it. The record stays served, merged and pending nowhere, though every save
  worked (`ProjectionLimits.ARemovalInsideACombine`, `ProjectionLimits.WhatIsLeftStays`).
  A combine keeps the zone accounted for exactly when it is about to serve nothing that
  has left the merge and is not pending (`Projection.StagingKeeps`), which is then a
  cleanup it took itself (`Projection.TheOvertakenIsInHand`). A run keeps it in every
  state exactly when no step loses anything in this or one of the next three ways
  (`Projection.ARunKeepsWhenNothingIsLost`); so when, by its steps, no change falls
  between a copy and the taking of the cleanups, none of the next two is there, and no
  CSYNC is left out (`Projection.UndisturbedRunsKeep`).
- A removal whose save failed notes no cleanup: what nobody contributes then stays in
  the zone (`ProjectionLimits.UnsavedRemovalsLeaveTheLast`), exactly unless all it
  empties is pending already, noted by the sets handed, or has nothing to clean up
  (`ProjectionLimits.ARemovalMustBeSaved`).
- A combine made while the edits are not to be applied throws the cleanups away
  (`ProjectionLimits.AnUnappliedCombineLeavesTheLast`); that is harmless exactly when
  there is nothing to clean up (`ProjectionLimits.ACombineMustApply`).
- The merge asks anew at every sender's turn which CSYNC is to be served, each time of
  the map in some order of its own, and takes the answer when it is that sender's. So
  with one CSYNC a sender a merge may be without any exactly when none displaces all the
  others (`Contributions.NoneIsPickedWhenNoneDisplacesAll`), and a merge built again then
  loses the one served, no cleanup being noted (`ProjectionLimits.ARebuildKeepsTheCsync`).
  Every other change that notes what it leaves loses nothing
  (`Projection.NotedChangesLoseOnlyACsync`).
- The combiner answers a hand-over that is the same as the one it holds, made later,
  without keeping the later time. So when A, B and A of one key are handed in turn
  and B arrives last, B is taken: the agent believes A held, and the combiner acts by
  B (`HandoverProtocol.TheCombinerIsLeftBehind`). What the combiner holds is older
  than what the agent believes exactly in that case
  (`HandoverProtocol.BehindOnlyWhenHandedAgain`), so never in a run in which nothing is
  handed again after something else of its key
  (`HandoverProtocol.NeverBehindWhenNothingIsHandedAgain`). The level (serial, newest,
  phase, step) never falls behind (`HandoverProtocol.WhatTheAgentBelievesWasTaken`).
- A forget is to be told until a hand-over that tells it is confirmed. The combiner's
  confirmation of a hand-over that tells a forget clears the flag whenever that was
  made: forgotten again while it is in flight, the zone is handed over next without a
  word of the second forget (`HandoverLife.ASecondForgetIsNotTold`), and the combiner
  judges that by the serials (`HandoverLife.UntoldTheSerialsDecide`). The agent means to
  tell exactly the forgets that are untold, in every state of a run, exactly when no
  hand-over that tells an earlier forget is confirmed after a later one
  (`HandoverLife.ForgetsAreToldExactlyWhen`). The signer's variant compares the times.
- The order gated updates keep is that in which they are let out. Between the gate
  and the queue no lock is held, and one may overtake another there
  (`GatedUpdates.OvertakenOnTheWayToTheQueue`). They are on the queue in the order they
  were let out exactly when none comes onto it while an earlier one of its zone is on
  its way (`QueueOrder.TheQueueHasThemAsLetOut`), as with a gate held until the update
  is on the queue (`QueueOrder.OneAtATimeNothingOvertakes`); and from every state with
  one on its way and another that may go out a run goes on to overtake it
  (`QueueOrder.OneOnItsWayMayBeOvertaken`).
- The newest REPLACE is kept in the agent's table, the set it carried in memory alone. A
  restart that hydrates another set loses it, and an older one is refused from then on
  (`ReplaceOrder.ARestartLosesTheNewest`). The newest set is held in the end exactly
  when it was delivered since the last restart or is what that hydrated
  (`ReplaceOrder.TheNewestWins`).
- An agent that is sent a set with a record twice may take the next set for the same
  one (`ReplaceOrder.ARecordTwiceHidesTheNewest`), exactly when the two are as long, the
  second has more records and none of them is rejected (`ReplaceOrder.TheAgentHoldsWhatWasSent`).
- Serials pairwise less than 2^31 apart do not make the CSYNC served independent of
  the order the senders are listed in: three may lie a third of the circle apart
  (`Csync.PairwiseCloseIsNotEnough`). The exact condition is that one record
  displaces all others (`Csync.ServedInEveryOrder`), and serials inside one half of
  the circle are enough (`Csync.OneCsyncWhateverTheOrder`).
- The verdict cache reads its clock before it takes its lock. A reading that comes
  late to the lock wins a key a second time (`Verdicts.ALateReadingWinsAgain`): exactly
  when a note made in between, of any key, read the clock past the hold
  (`Verdicts.HeldUntilForgotten`).
- The id of an edit is taken and used in two transactions
  (v2/combiner_msg_handler.go:156-171). An edit resolved between them with a rejected
  portion is given the same id (`EditTables.AnIdTakenTwice`); a save under an id taken
  earlier is safe exactly when the id names nothing approved or rejected by then
  (`EditTables.SavingKeepsUniqueWhenFree`).
- An activation makes the requests whose answers are kept wait again. So nine may wait
  at a peer (`CatchUp.NineAtOnce`); they stay at eight exactly when there is room for
  the kept ones (`CatchUp.AnActivationKeepsEightWhenThereIsRoom`).

## Model

| member | source | states |
|---|---|---|
| `Serial.CompareIsAntisymmetric` | v2/instructions.go:211-224 | swapping two serials swaps the answer, and 0 is given for equal and for opposite serials only |
| `Serial.NewerIsCompare` | v2/combiner_utils.go:131-134 | the combiner's "newer" of two CSYNC serials is the comparison's 1 on every pair, the undefined ones included |
| `Serial.CompareInsideAHalf` | v2/instructions.go:211-224 | inside one half of the circle the comparison is a total order |
| `Names.BeforeByTheBytes` | v2/agent_policy.go:22-41 | a string is before another exactly when it is a proper prefix of it, or has the smaller byte where they first differ |
| `Handover.SameButForTheTimes` | v2/acting_handover.go:83-97 | two hand-overs are the same exactly when they differ in nothing but zone, the wording of their records, time and flags |
| `Handover.OlderByTheSerials` | v2/acting_handover.go:99-113 | after a forget, or of no instructions, the time alone decides; else a serial that is not ahead by less than half the circle makes it older, the active one first |
| `Handover.ReconcilingComesFirst` | v2/acting_handover.go:73-81 | of one pair of serials what is not reconciling is never older than what is, and what is always older than what is not, whatever the steps and times; else the step decides, then the time |
| `Handover.OlderBothWays` | v2/acting_handover.go:99-122 | two hand-overs of instructions are each older than the other exactly when the serials that decide are 2^31 apart |
| `Handover.OlderNeitherWay` | v2/acting_handover.go:85-122 | neither is older exactly when they are the same, or agree in the whole key and the time made |
| `Handover.OlderThanIsBelow` | v2/acting_handover.go:99-122 | inside a half of the circle, older means lower by the key, or of its key, something else and made before |
| `Handover.LevelsAreTransitive` | v2/acting_handover.go:99-122 | the level (serial, newest, phase, step) is a transitive order inside a half of the circle |
| `Handover.OlderIsTransitiveButForSame` | v2/acting_handover.go:85-122 | a before b before c gives a before c, or a the same as c |
| `Handover.TheSameHandedAgain` | v2/acting_handover.go:118-121 | why the last case is there: a hand-over handed again after another of its key |
| `Handover.OlderCanGoRound` | v2/acting_handover.go:112-113 | three hand-overs outside one half of the circle are each older than the next |
| `Handover.NotOlderIsAtOrAbove` | v2/acting_handover.go:99-122 | what the take lets past is what is at or above the level held, a reconciling step being below all else of its serials, or the same under the same key; nothing else |
| `ActingStore.ActingStore.Load` | v2/combiner_acting.go:62-95 | a start restores every row whose records read, each as it was kept, and no other |
| `ActingStore.ActingStore.TakeHandover` | v2/combiner_acting.go:183-234 | the new store, table and answer of a take: refused, failed, repeated, dropped or kept; what ends a transition takes the place of its step, and a late step is refused and changes nothing |
| `ActingStore.TakeTellsWhatItDid` | v2/combiner_acting.go:169-234 | a take that is refused, fails or repeats changes neither memory nor table; one that changed holds what was handed |
| `ActingStore.WhyATakeFails` | v2/combiner_acting.go:97-119 | which error a take gives, exactly: the records do not give the serial and digest named; what is held is newer; or what was to be kept or dropped could not be |
| `ActingStore.TheEndOfATransitionIsTaken` | v2/combiner_acting.go:199-202 | what is not reconciling is taken and kept over a reconciling step of its serials, and the reverse is refused as older and changes nothing |
| `ActingStore.TakeIsDurable` | v2/combiner_acting.go:183-234 | after every take the table restores what memory holds |
| `ActingStore.RestartIsDurable` | v2/combiner_acting.go:62-95 | and after a restart it does still |
| `ActingStore.AYesRefusesTheOlder` | v2/combiner_acting.go:183-234 | after a yes, what is older than the hand-over answered is refused; exactly but for a repeat made later than the one held |
| `ActingStore.RestartKeepsWhatIsHeld` | v2/combiner_acting.go:62-95 | a restart between two takes changes no answer about what is held |
| `ActingStore.TakeKeepsTheLevel` | v2/combiner_acting.go:183-234 | a take never lowers the level held for any zone |
| `ActingStore.WhatIsHeldOnlyRises` | v2/combiner_acting.go:183-234 | over any sequence of takes and restarts the level held never goes down |
| `ActingStore.ATransitionEndsForGood` | v2/combiner_acting.go:183-234 | over any sequence of takes, failures and restarts a zone past its transition is, while its serials stay, at no reconciling step again, nor at an earlier one |
| `HandoverTracker.Tracker.HandOver` | v2/acting_handover.go:264-305 | what is wanted, and the hand-over sent for it, when none the same is in flight or held |
| `HandoverTracker.Tracker.DueLocked` | v2/acting_handover.go:287-305 | a hand-over goes out when something is wanted, not held, and not in flight, or again |
| `HandoverTracker.Tracker.Undelivered` | v2/acting_handover.go:318-333 | a hand-over the queue refused is in flight no more, unless another took its place |
| `HandoverTracker.Tracker.Gate` | v2/acting_handover.go:354-374 | an update passes, waits, or is refused when too many wait |
| `HandoverTracker.Tracker.WordOnHandover` | v2/acting_handover.go:389-417 | what a final word on the hand-over in flight makes held, and what is sent next |
| `HandoverTracker.Tracker.WordOnUpdate` | v2/acting_handover.go:419-440 | a word on an update: it is to wait again exactly when it is a refusal of what went under something else than is wanted, or by a combiner that acts by something else; every other is final, with all the records removed |
| `HandoverTracker.Tracker.Requeue` | v2/acting_handover.go:430-445 | the update waits again at the end, carrying what was removed |
| `HandoverTracker.Tracker.Unsent` | v2/acting_handover.go:449-455 | an update the queue refused is forgotten |
| `HandoverTracker.Tracker.DrainTake` | v2/acting_handover.go:463-478 | the head is taken only while the combiner holds what is wanted and no other drain runs |
| `HandoverTracker.Tracker.DrainDone` | v2/acting_handover.go:479-491 | the head leaves the wait when the queue took it, and stays when it did not |
| `HandoverTracker.Tracker.Drain` | v2/acting_handover.go:463-491 | the loop: one head after another until one is refused or none may go |
| `HandoverTracker.Tracker.Learned` | v2/acting_handover.go:514-545 | what the combiner says it holds is believed unless older than what is known |
| `HandoverTracker.Tracker.CombinerStarted` | v2/acting_handover.go:556-573 | every zone's held is forgotten, and what is wanted is handed again |
| `HandoverTracker.Tracker.Again` | v2/acting_handover.go:577-589 | the same, of one zone |
| `HandoverTracker.Tracker.LetHoldGo` | v2/acting_handover.go:593-614 | what is wanted without its hold |
| `HandoverTracker.Tracker.HoldLast` | v2/acting_handover.go:618-642 | what is held, or wanted, with the hold |
| `HandoverTracker.Tracker.Forgot` | v2/acting_handover.go:658-668 | what was held is not known any more, and the next hand-over says it follows a forget |
| `HandoverTracker.Tracker.Tick` | v2/acting_handover.go:672-704 | what was in flight too long goes out again, what waits is drained, and what was sent a day ago is forgotten |
| `HandoverLife.WhatAWordOnAnUpdateDoes` | v2/acting_handover.go:419-445 | the same of the step: by the status, what is wanted and the serial, digest and step given |
| `HandoverLife.WhoWaitsAtTheGate` | v2/acting_handover.go:354-374 | an update waits, at the end, exactly while the combiner is not known to hold what is wanted, or another waits or is on its way from the wait; at ten thousand it is refused; else it is noted under what the combiner holds |
| `HandoverLife.WhoLeavesTheWait` | v2/acting_handover.go:463-491 | the first leaves exactly when the combiner is known to hold what is wanted and none is on its way; it stays first when the queue refuses it |
| `HandoverLife.WhatIsSentSays` | v2/acting_handover.go:287-305 | what goes out is what is wanted, made now, telling of a forget exactly when there is one to tell |
| `HandoverLife.NothingIsSentTwice` | v2/acting_handover.go:280-295 | nothing goes out that is known to be held, or, but at a start or five minutes later, is in flight |
| `HandoverLife.WhatNotQueuingChanges` | v2/acting_handover.go:318-327 | only the hand-over the queue refused is in flight no more |
| `HandoverLife.WhatLearningChanges` | v2/acting_handover.go:507-528 | an answer of nothing, or of something older than is known, is kept out; any other is believed |
| `HandoverLife.WhatStartingOverChanges` | v2/acting_handover.go:572-589 | what was held is known no more, and what is wanted goes out, in flight or not |
| `HandoverLife.AStartIsForEveryZone` | v2/acting_handover.go:554-570 | a start does that to every zone |
| `HandoverLife.WhatLettingGoChanges` | v2/acting_handover.go:591-614 | what is wanted goes on without its hold |
| `HandoverLife.WhatHoldingLastChanges` | v2/acting_handover.go:616-642 | what is wanted is what is held, or was wanted where nothing is, with the hold; nothing changes without instructions |
| `HandoverLife.WhatForgettingChanges` | v2/acting_handover.go:656-668 | nothing is known to be held, and the forget is to be told |
| `HandoverLife.WhatAWordChanges` | v2/acting_handover.go:391-412 | a success makes what was in flight held and its forget told; anything else that nothing is known to be held |
| `HandoverLife.WhatATickForgets` | v2/acting_handover.go:670-704 | what was sent more than a day ago, and nothing else |
| `HandoverLife.UpdatesMoveNoHandover` | v2/acting_handover.go:354-491 | the gate, the drain and the words on updates move no hand-over |
| `HandoverLife.ATickSeesToIt` | v2/acting_handover.go:670-695 | after a tick what is wanted is held or in flight, unless something unanswered went out in the last five minutes |
| `HandoverLife.NothingWantedIsLeftUnsent` | v2/acting_handover.go:264-305 | in every run from then on in which nothing fails it stays so |
| `HandoverLife.ForgetsAreToldExactlyWhen` | v2/acting_handover.go:407 | a forget is told until a hand-over made since that tells it is confirmed, in every state of a run exactly when no earlier hand-over that tells one is confirmed after it |
| `HandoverLife.WhatIsSentTellsTheForget` | v2/acting_handover.go:296-303 | so after such a run what is sent tells a forget exactly when one is untold; in any run it tells none that has been told |
| `HandoverLife.ASecondForgetIsNotTold` | v2/acting_handover.go:406-407 | the run: forgotten, handed, forgotten, confirmed, handed; the last says nothing of the second |
| `HandoverLife.UntoldTheSerialsDecide` | v2/acting_handover.go:110-113 | then the combiner judges it by the serials, and refuses one that is not newer; told, it would take it |
| `HandoverProtocol.EveryRunIsSound` | v2/acting_handover.go:354-545 | the joint invariant holds in every state of every run of agent, combiner and network, restarts of either included |
| `HandoverProtocol.WhatTheAgentBelievesWasTaken` | v2/acting_handover.go:389-417 | what the agent believes held of a zone, and what each update it let out went under, was taken by the combiner for that zone, and it has held nothing below that since |
| `HandoverProtocol.NothingGoesOutUntaken` | v2/acting_handover.go:354-374 | an update that passes the gate or is drained goes out under what is wanted, which the combiner has taken |
| `HandoverProtocol.BehindOnlyWhenHandedAgain` | v2/combiner_acting.go:199-210 | the combiner holds something older than the agent believes exactly when the agent handed the same again after something else of its key |
| `HandoverProtocol.NeverBehindWhenNothingIsHandedAgain` | v2/combiner_acting.go:199-210 | of the hand-overs of a run alone: if none is handed again after another of its key, the combiner is never behind |
| `HandoverProtocol.TheCombinerIsLeftBehind` | v2/combiner_acting.go:199-210 | for every such pair a run ends with the combiner acting by the other, and neither its own answer nor the ticker repairs that |
| `GatedUpdates.EveryRunIsSound` | v2/acting_handover.go:354-491 | every update is in exactly one place in every state of every run |
| `GatedUpdates.NothingOvertakesNothingVanishes` | v2/acting_handover.go:354-374 | in every run the updates accepted are those let out followed by those waiting, in order; each is in one of waiting, sent, in hand, answered, refused or aged out |
| `GatedUpdates.RemovedRecordsReachTheFinalWord` | v2/acting_handover.go:419-445 | the records carried with a final word are those reported removed in every earlier word, in order |
| `GatedUpdates.RemovalsAreWhatWasSaid` | v2/acting_handover.go:419-445 | what is recorded as removed of an update is what its words that were not final said |
| `GatedUpdates.FinalExactlyWhenJudgedByWhatIsWanted` | v2/acting_handover.go:419-445 | in every run an update has had its final word exactly when a word on it was a success, or refused it when the zone wanted what it went under, or nothing, and the serial, digest and step given, if any, were those |
| `GatedUpdates.DrainLetsEverythingOut` | v2/acting_handover.go:463-491 | a drain that nothing disturbs lets out all that waits, in order, under what is held |
| `GatedUpdates.AgentStepsMoveNoUpdate` | v2/acting_handover.go:264-305 | handing over, letting a hold go and resending move no update |
| `GatedUpdates.ArrivalsMoveNoUpdate` | v2/acting_handover.go:514-589 | nor do the combiner's start and its answers |
| `GatedUpdates.WordOnHandoverMovesNoUpdate` | v2/acting_handover.go:389-417 | nor does a word on a hand-over |
| `GatedUpdates.HoldingLastMovesNoUpdate` | v2/acting_handover.go:618-642 | nor does holding the last |
| `GatedUpdates.PassesMoveNoUpdate` | v2/acting_handover.go:556-573 | nor do the passes over all zones |
| `GatedUpdates.OvertakenOnTheWayToTheQueue` | v2/acting_handover.go:343-374 | a run in which an update let out by the gate is behind, on the queue, one that arrived after it |
| `QueueOrder.AStepKeepsOrder` | v2/acting_handover.go:343-491 | a step keeps a zone's queue in the order let out exactly when it puts nothing there past an earlier one still on its way |
| `QueueOrder.TheQueueHasThemAsLetOut` | v2/acting_handover.go:343-491 | and a run does, in every state, exactly when no step of it does that |
| `QueueOrder.OneAtATimeNothingOvertakes` | v2/acting_handover.go:343-374 | with nothing of the zone put on the queue while one is on its way, the order is kept |
| `QueueOrder.OneOnItsWayMayBeOvertaken` | v2/acting_handover.go:343-374 | from every reachable state with one on its way and another that may go out, a run overtakes it |
| `Csync.CsyncToServe` | v2/combiner_utils.go:183-199 | the choice over the records in the order listed |
| `Csync.WhatSupersedes` | v2/combiner_utils.go:142-149 | the combiner's own never supersedes another's and is superseded by every one; else the serial that is ahead by less than half the circle does |
| `Csync.ServedOfTwo` | v2/combiner_utils.go:183-199 | of two the combiner's own gives way, else the newer serial is served, else the sender named first; in either order |
| `Csync.TheOwnIsServedLast` | v2/combiner_utils.go:120-129 | however many are held, the combiner's own is served exactly when there is no other |
| `Csync.TheNewestOfTheOthersIsServed` | v2/combiner_utils.go:113-119 | with serials in one half of the circle the newest of the others is served, and of several such one whose sender none is named before |
| `Csync.ServedInEveryOrder` | v2/combiner_utils.go:160-199 | one record is served in every order of the senders, each one's records together, exactly when it displaces all others, and then none supersedes it |
| `Csync.OneCsyncWhateverTheOrder` | v2/combiner_utils.go:104-129 | with one CSYNC a sender and the agents' serials in one half of the circle the order does not matter |
| `Csync.RoundAndRound` | v2/combiner_utils.go:144-149 | three that displace one another in a circle: none is served in every order |
| `Csync.PairwiseCloseIsNotEnough` | v2/combiner_utils.go:131-134 | three serials pairwise less than 2^31 apart do so |
| `Csync.CsyncVerdict` | v2/combiner_utils.go:206-231 | refused exactly when more than one is sent or a held one supersedes it; else each other sender is to be dropped, once |
| `Csync.TakenIsTheOnlyOne` | v2/combiner_chunk.go:1392-1423 | a CSYNC taken, the others dropped, is the only one held and the one served |
| `RecordLists.MergeRRsets` | v2/combiner_utils.go:74-94 | the baseline, then what it lacks of the contribution; no record twice |
| `RecordLists.RRsetEqual` | v2/combiner_utils.go:96-114 | equal exactly when the two have the same records as often |
| `RecordLists.SameRecordsSameSet` | v2/combiner_utils.go:96-114 | for lists without a record twice that is equality as sets |
| `RecordLists.ReplacementDiff` | v2/combiner_utils.go:979-1013 | applied is new minus old, removed is old minus new, changed exactly when either is not empty |
| `ServedLists.SetUnlessSame` | v2/combiner_utils.go:384-391 | a list that carries the records to be served is left as it is, else they take its place |
| `ServedLists.ServedAsUpstreamList` | v2/combiner_utils.go:399-425 | over lists, what the zone then serves is, as sets, what the projection restores |
| `ServedLists.CombineOneList` | v2/combiner_utils.go:364-393 | over lists, what a combine stages at a slot is, as a set, what the projection has there |
| `Contributions.TheMergeHasWhatIsContributed` | v2/combiner_utils.go:1210-1289 | record by record: the merge has the DNSKEYs the key signers handed contribute, the CDS the DS signers do, all of them when nothing was handed; the CSYNC picked; and all of every other type |
| `Contributions.WhatTheProvidersLeaveOut` | v2/combiner_acting.go:355-372 | what is left out and noted: the DNSKEYs of a slot to which a sender contributes that is no key signer handed, the CDS likewise; nothing when nothing was handed |
| `Contributions.TheOneServedIsPicked` | v2/combiner_utils.go:1245-1252 | where one CSYNC displaces the others the merge has that one, whatever the listings at its senders' turns |
| `Contributions.NoneIsPickedWhenNoneDisplacesAll` | v2/combiner_utils.go:1245-1252 | with one CSYNC a sender a merge may have none exactly when none displaces all the others |
| `Contributions.MergedOrFiltered` | v2/combiner_utils.go:1229-1252 | what is contributed is in the merge, or was left out by the providers handed and a cleanup noted, or is a CSYNC that no turn took; and then it is not |
| `Contributions.SavingKeepsSaved` | v2/db_combiner_contributions.go:20-59 | a save leaves the sender's rows as its contribution, and every other sender's rows alone |
| `Contributions.TheSnapshotGivesItBack` | v2/db_combiner_contributions.go:61-106 | the table read back is what was held, but for senders that contribute nothing |
| `Contributions.TheRestoredMergeIsTheSame` | v2/config.go:280-307 | and merges to the same |
| `Projection.ChangingKeeps` | v2/combiner_utils.go:232-252 | a change of contributions keeps the zone equal to the upstream's wherever nothing is merged, pending or in a combine's hand, exactly when every RRset it empties in the merge is pending then or has nothing to clean up |
| `Projection.ChangesAreNoted` | v2/combiner_utils.go:578-1036 | every change, but a removal that is not saved, notes all that it empties in the merge but a CSYNC it leaves out |
| `Projection.NotedChangesLoseOnlyACsync` | v2/combiner_utils.go:578-1036 | such a change loses nothing, exactly unless it leaves a CSYNC out that is not pending and has something to clean up |
| `Projection.OneCsyncIsNotLeftOut` | v2/combiner_utils.go:1245-1252 | and it leaves none out where one displaces the others |
| `Projection.AddingNotes` | v2/combiner_utils.go:578-653 | adding does, saved or not |
| `Projection.RemovingNotes` | v2/combiner_utils.go:771-863 | removing records does, when saved |
| `Projection.RemovingTypeNotes` | v2/combiner_utils.go:865-931 | removing an RRset does, when saved |
| `Projection.ReplacingNotes` | v2/combiner_utils.go:934-1036 | replacing does, saved or not |
| `Projection.PurgingNotes` | v2/combiner_utils.go:1300-1380 | purging a sender does, when the delete works |
| `Projection.CombineIsItsParts` | v2/combiner_utils.go:522-563 | a combine that nothing disturbs is its copy, its taking of the cleanups and its batch |
| `Projection.WhoseEditsApply` | v2/combiner_chunk.go:99-131 | type by type, which contributions a combiner applies |
| `Projection.WhatACombineServes` | v2/combiner_utils.go:361-479 | at an apex whose upstream is known: the merge where it applies, an NS on top of the upstream's; else, merged or pending, as the upstream has it, an NS it lacks staying; the rest as it was |
| `Projection.WhatACombineServesBelow` | v2/combiner_utils.go:470-479 | below it: what is pending and merged no more goes, and nothing else |
| `Projection.WhatACombinePutsOff` | v2/combiner_utils.go:441-447 | before the upstream is known: only what applies is served, and what is to be cleaned up waits |
| `Projection.WhatIsKeptOfTheUpstream` | v2/hsync_utils.go:1240-1270 | its DNSKEY, CDS, CSYNC, NS and KEY RRsets at the apex, as they came; nothing of a copy without an apex |
| `Projection.TheOvertakenIsInHand` | v2/combiner_utils.go:433-438 | what a combine is about to serve, left the merge and pending no more, is among the cleanups it took |
| `Projection.StagingKeeps` | v2/combiner_utils.go:357-479 | a batch keeps the zone accounted for exactly when it serves nothing of the kind |
| `Projection.AFailedBatchKeeps` | v2/combiner_utils.go:546-549 | a batch that fails gives its cleanups back, and keeps it |
| `Projection.SkippingKeeps` | v2/combiner_utils.go:530-535 | a combine that throws the cleanups away keeps it exactly when there is nothing to clean up |
| `Projection.CopiedAndTakenTogetherNothingIsOvertaken` | v2/combiner_utils.go:312-345 | nothing is overtaken by a combine whose copy and taking of the cleanups have nothing between them, whatever comes before the batch |
| `Projection.AStepKeepsWhenItLosesNothing` | v2/combiner_utils.go:232-252 | each change, hand-over, policy change, refresh, restart and part of a combine keeps it exactly when it loses nothing |
| `Projection.ARunKeepsWhenNothingIsLost` | v2/combiner_utils.go:232-252 | in every state of a run the served zone differs from the upstream's only where something is merged, pending or in hand, exactly when no step of the run loses anything |
| `Projection.UndisturbedRunsKeep` | v2/combiner_utils.go:312-345 | a run loses nothing that throws no cleanups away, saves its removals, leaves out no CSYNC, and has no change between a combine's copy and its taking of the cleanups |
| `Projection.StepsKeepCurrent` | v2/combiner_utils.go:1210-1289 | the merge held is the merge of the contributions after every step but taking a hand-over |
| `Projection.CombiningTwice` | v2/combiner_utils.go:357-396 | a second combine changes nothing |
| `Projection.CombiningIsComputingAnew` | v2/combiner_utils.go:361-479 | one combine makes every RRset at the apex what the upstream's copy and the contributions give |
| `Projection.AfterAnyRunACombineIsComputingAnew` | v2/combiner_utils.go:361-479 | after any run that loses nothing it does, and another combine changes nothing |
| `ProjectionLimits.OnlyWhatIsSaidChanges` | v2/combiner_utils.go:578-1036 | each call adds, removes or replaces what it says in its sender's contribution, and leaves every other sender's as it was |
| `ProjectionLimits.EveryRunIsSaved` | v2/db_combiner_contributions.go:18-59 | in every run whose saves work the table has exactly what is held |
| `ProjectionLimits.RestartGivesItBack` | v2/config.go:280-307 | then a restart gives back the contributions and their merge |
| `ProjectionLimits.ARestartChangesNothingServed` | v2/config.go:280-307 | and restart, load and combine serve what a combine before would have; of CSYNC, where one displaces the others |
| `ProjectionLimits.ARemovalMustBeSaved` | v2/combiner_utils.go:771-931 | in each state: a removal of records, of an RRset or of a sender that is not saved keeps it exactly when all it empties is pending already, noted as left out, or has nothing to clean up; one that is saved, but for a CSYNC it leaves out |
| `ProjectionLimits.UnsavedRemovalsLeaveTheLast` | v2/combiner_utils.go:915-931 | the last contribution removed in any of the three ways and not saved stays served |
| `ProjectionLimits.CombiningKeeps` | v2/combiner_utils.go:522-563 | a combine that nothing disturbs keeps it, also one whose batch fails or that must put cleanups off |
| `ProjectionLimits.ACombineMustApply` | v2/combiner_utils.go:530-535 | in each state: a combine keeps it exactly when the edits are to be applied or every pending RRset outside the merge is as the upstream has it |
| `ProjectionLimits.AnUnappliedCombineLeavesTheLast` | v2/combiner_utils.go:530-535 | the run: removed and saved, and a combine under a policy that applies no edits; the record stays served |
| `ProjectionLimits.ARemovalInsideACombine` | v2/combiner_utils.go:312-345 | the run: copied, removed and saved, cleanups taken, staged; the record stays served |
| `ProjectionLimits.ARebuildKeepsTheCsync` | v2/combiner_utils.go:1245-1252 | in each state with a CSYNC served, nothing of it pending and one held of each sender: every merge built again keeps it accounted for exactly when one of them displaces the others |
| `ProjectionLimits.WhatIsLeftStays` | v2/combiner_utils.go:433-479 | what was left behind, no later combine takes out |
| `CombinerZone.ZoneAtCombiner.constructor` | v2/config.go:280-307 | a zone starts with the contributions of its snapshot, merged |
| `CombinerZone.ZoneAtCombiner.LoadContributions` | v2/db_combiner_contributions.go:61-106 | the rows read one by one into the nested maps |
| `CombinerZone.ZoneAtCombiner.SaveContributions` | v2/db_combiner_contributions.go:18-59 | deletes and inserts of one transaction, all or nothing |
| `CombinerZone.ZoneAtCombiner.RebuildCombinerData` | v2/combiner_utils.go:1210-1289 | the loops over senders and RRsets give the merge, record by record by the providers handed, with a CSYNC that the turns' listings lead to, and note exactly what those leave out |
| `CombinerZone.ZoneAtCombiner.MergeCsync` | v2/combiner_utils.go:1245-1252 | one sender's turn: its CSYNC takes the place of what the merge had when it is the one to serve |
| `CombinerZone.ZoneAtCombiner.CsyncsHeld` | v2/combiner_utils.go:160-179 | all CSYNC records at an owner, once each, sender by sender |
| `CombinerZone.ZoneAtCombiner.AddCombinerData` | v2/combiner_utils.go:578-653 | the loops give what was there and what is added; changed exactly when that differs |
| `CombinerZone.ZoneAtCombiner.RemoveCombinerDataNG` | v2/combiner_utils.go:771-863 | the loops take out what is named, and return exactly what was there |
| `CombinerZone.ZoneAtCombiner.RemoveCombinerDataByRRtype` | v2/combiner_utils.go:865-931 | the RRset goes, and is returned |
| `CombinerZone.ZoneAtCombiner.ReplaceCombinerDataByRRtype` | v2/combiner_utils.go:934-1036 | the new set in place of the old, with what was added and removed |
| `CombinerZone.ZoneAtCombiner.PurgeContributionsForOrigin` | v2/combiner_utils.go:1300-1380 | all of a sender's, refused for no name |
| `CombinerZone.ZoneAtCombiner.Refresh` | v2/hsync_utils.go:1240-1270 | the upstream's copy in place of the zone, and the snapshot of its apex |
| `CombinerZone.CombineInto` | v2/combiner_utils.go:357-396 | each merged RRset as it is to be served, the rest untouched |
| `CombinerZone.ServedAsUpstream` | v2/combiner_utils.go:399-425 | as the upstream has it; an NS it lacks is kept; nothing before it is known |
| `CombinerZone.CleanupInto` | v2/combiner_utils.go:427-479 | each cleanup nobody contributes any more, or put off |
| `CombinerZone.ProjectInto` | v2/combiner_utils.go:541-545 | the batch's callback gives the zone's next content and what it puts off |
| `CombinerZone.ZoneAtCombiner.CombineInput` | v2/combiner_utils.go:312-341 | the copy, RRset by RRset |
| `CombinerZone.ZoneAtCombiner.TakeOutCleanups` | v2/combiner_utils.go:281-287 | all that is pending, once |
| `CombinerZone.ZoneAtCombiner.StageBatch` | v2/combiner_utils.go:540-550 | the batch on whatever the state has become: staged, the put off pending again, or failed and all given back |
| `CombinerZone.ZoneAtCombiner.CombineAndPublish` | v2/combiner_utils.go:522-563 | undisturbed, the zone's next content and pending cleanups; changed exactly when the content is |
| `ReplaceOrder.OlderIsATotalOrder` | v2/agent_policy.go:22-41 | origins are totally ordered by time and distribution id |
| `ReplaceOrder.OlderByTimeThenId` | v2/agent_policy.go:22-41 | the earlier is older; of one time the one with the lower id, byte by byte |
| `ReplaceOrder.ReplaceGuard.Attach` | v2/agent_policy.go:57-94 | the rows kept are read back |
| `ReplaceOrder.ReplaceGuard.NoteReplaceOrigin` | v2/agent_policy.go:31-55 | an older one is refused and changes nothing; another is kept, in the table too when the save works |
| `ReplaceOrder.CombinerGuard.StaleCombinerReplace` | v2/combiner_chunk.go:1823-1841 | the same in memory; a request without a time is never stale |
| `ReplaceOrder.ProcessReplace` | v2/agent_policy.go:612-699 | the set stored after a REPLACE, and whether it changed |
| `ReplaceOrder.TheAgentHoldsWhatWasSent` | v2/agent_policy.go:630-664 | the agent then holds the set sent, exactly but for a set held with a record twice |
| `ReplaceOrder.TheCombinerHoldsWhatWasSent` | v2/combiner_utils.go:941-1013 | the combiner holds it in every case |
| `ReplaceOrder.WithoutATimeItIsTaken` | v2/combiner_chunk.go:1823-1841 | a REPLACE without a time is taken whatever was noted, and not noted |
| `ReplaceOrder.TheGuardIsPerKey` | v2/agent_policy.go:31-55 | a REPLACE of one zone, agent and type is judged by those of the same alone |
| `ReplaceOrder.EveryRunHoldsTheNewest` | v2/agent_policy.go:582-605 | in every run the guard holds the newest origin it remembers, and the set is that origin's if it came since the last restart, else what was hydrated |
| `ReplaceOrder.TheNewestWins` | v2/agent_policy.go:582-605 | whatever the order, repeats and restarts, the newest origin's set is held in the end exactly when it was delivered since the last restart or is what that hydrated |
| `ReplaceOrder.ReplicasConverge` | v2/combiner_chunk.go:1316-1330 | of two whose guards remember the same, one of which holds the newest set, the other holds the same exactly under that condition |
| `ReplaceOrder.ARestartStillRefuses` | v2/db_replace_origin.go:18-36 | a restart goes on refusing what is older exactly when the newest was saved |
| `ReplaceOrder.ARestartLosesTheNewest` | guide/synchronization-model.md:62-90 | the run: the newest, a restart, an older one; what was hydrated is held |
| `ReplaceOrder.ARecordTwiceHidesTheNewest` | v2/agent_policy.go:635-650 | the run in which a set with a record twice hides the newer one |
| `CatchUp.EveryRunIsSound` | v2/catchup.go:79-96 | an entry is complete exactly when it is idle, and its name is its last |
| `CatchUp.CompleteMeansAnswered` | v2/catchup.go:453-479 | a complete entry's peer answered complete, naming the entry's last request after that went out |
| `CatchUp.DeadForGood` | v2/catchup.go:300-323 | a name superseded, failed, answered or dropped never comes back |
| `CatchUp.TheDeadChangeNothing` | v2/catchup.go:453-479 | and an answer to it, or the outcome of its send, never changes anything |
| `CatchUp.LeavingSentIsDeath` | v2/catchup.go:909-928 | every end of a request's wait is the end of its name |
| `CatchUp.AskingAnewEndsTheNameBefore` | v2/catchup.go:300-360 | a request made anew ends the name before; a peer's start makes it anew though one is out, unless the same start is told again |
| `CatchUp.NothingWaitsAfterABeat` | v2/catchup.go:394-417 | a beat wakes all that waits for the peer, what was paused under a new name, and touches nothing sent |
| `CatchUp.SteppingFailsOnlySilence` | v2/catchup.go:845-847 | a step fails a request that is out exactly for silence |
| `CatchUpEntries.WhatAStepDoesToARetry` | v2/catchup.go:848-857 | a retry whose time has come is dropped exactly when its zone applies no more, paused when the peer is not operational, and else due or out under a new name; before its time nothing happens to it |
| `CatchUpEntries.WhatAStepDoesToWhatIsOut` | v2/catchup.go:845-847 | what is out fails exactly when it is acknowledged, not kept, of a zone whose serial is known and past its time |
| `CatchUpEntries.WhatAStepDoesToTheRest` | v2/catchup.go:858-886 | what is due goes out when picked, waits where the peer is not operational; the rest, and what is of other peers, stays as it is |
| `CatchUpEntries.WhatGoesOut` | v2/catchup.go:869-886 | the first due by zone, byte by byte, goes out while fewer than eight wait; when none does nothing is due or eight wait |
| `CatchUpEntries.WhatAFailureDoes` | v2/catchup.go:909-928 | asked again after 5, 15, 30 and 60 seconds, then every five minutes, for the same reason |
| `CatchUpEntries.WhatAskingDoes` | v2/catchup.go:330-372 | when a request outstanding, or an answer of the last minute, stands, exactly, and what is made otherwise |
| `CatchUpEntries.WhatABeatDoes` | v2/catchup.go:400-412 | what was noted goes out under its name, what was paused under a new one |
| `CatchUpEntries.WhatAnAnswerDoes` | v2/catchup.go:453-479 | a complete answer to the request out ends it, one that is not fails it, any other changes nothing |
| `CatchUpEntries.WhatTheSendsEndDoes` | v2/catchup.go:888-907 | its acknowledgement gives the answer 30 seconds at least; an error fails it |
| `CatchUpEntries.WhatAnActivationDoes` | v2/catchup.go:499-528 | what is out and acknowledged or kept waits again, for 30 seconds or two beats, the longer, and never less than before |
| `CatchUpEntries.GoesExactlyWhenItMay` | v2/catchup.go:544-566 | an entry goes exactly when its peer is forgotten, is pruned, or its retry is due in a zone that applies no more; and comes only by being asked for |
| `CatchUpEntries.ThereUntilItGoes` | v2/catchup.go:682-698 | in every run there is an entry exactly when it was asked for and has not gone so since |
| `CatchUpEntries.AFailedRequestIsAskedAgain` | v2/catchup.go:909-913 | whatever comes in between, the first step after the delay asks a failed request again under a new name, while its zone applies and the peer is operational |
| `CatchUp.TheAnswerTimeIsHonoured` | v2/catchup.go:481-528 | never before 30 seconds after its acknowledgement and the answer time after an activation, nor while its answer is kept or the serial is unknown, in whatever order these came |
| `CatchUp.NeverMoreThanEight` | v2/catchup.go:869-879 | no step takes the requests waiting at a peer above eight, an activation apart |
| `CatchUp.EightAtOnce` | v2/catchup.go:46-48 | in every run without one there are never more |
| `CatchUp.AnActivationAddsTheKept` | v2/catchup.go:506-528 | an activation adds exactly the requests whose answers are kept |
| `CatchUp.AnActivationKeepsEightWhenThereIsRoom` | v2/catchup.go:506-528 | so it keeps them at eight exactly when there is room for those |
| `CatchUp.NineAtOnce` | v2/catchup.go:869-879 | the run: eight out, one answer kept, a ninth out, and the activation; nine wait |
| `CatchUpTracker.AgentTracker.AskFor` | v2/catchup.go:300-360 | a request is named anew, or the one outstanding or a recent answer stands |
| `CatchUpTracker.AgentTracker.WakeFor` | v2/catchup.go:394-417 | what waited for the peer is due, what was paused under a new name |
| `CatchUpTracker.AgentTracker.Fail` | v2/catchup.go:909-928 | failed once more: asked again after 5, 15, 30 and 60 seconds, then every 5 minutes |
| `CatchUpTracker.AgentTracker.TakeAnswer` | v2/catchup.go:453-479 | an answer to the outstanding name ends or fails the request; any other changes nothing |
| `CatchUpTracker.AgentTracker.KeepAnswer` | v2/catchup.go:481-498 | a kept answer stops the wait |
| `CatchUpTracker.AgentTracker.NoteActive` | v2/catchup.go:506-528 | the wait of the zone's requests runs again, and never ends sooner |
| `CatchUpTracker.AgentTracker.Drop` | v2/catchup.go:544-566 | everything kept for the peer goes |
| `CatchUpTracker.AgentTracker.DropStale` | v2/catchup.go:682-698 | the zone's entries that apply no more go |
| `CatchUpTracker.AgentTracker.EndSend` | v2/catchup.go:888-907 | a send's error fails the request, its acknowledgement starts the wait |
| `CatchUpTracker.AgentTracker.CaughtUp` | v2/catchup.go:594-635 | caught up exactly when the own read is done and every voter answered complete with nothing outstanding; else whom it waits for |
| `CatchUpTracker.AgentTracker.Step` | v2/catchup.go:819-886 | the step's two loops: a retry that is due is dropped exactly where its zone applies no more, else asked again or paused, and nothing else is dropped; a send only to an operational peer with room, the first due by zone; else the wake-up is the earliest running deadline, after now, and with room nothing due is left |
| `OwedSync.OwedLedger.HoldUnlessCaughtUp` | v2/catchup.go:998-1014 | the test and the mark in one |
| `OwedSync.OwedLedger.OweForRoom` | v2/catchup.go:1031-1044 | the mark, waiting for room; its holds stay |
| `OwedSync.OwedLedger.OweForKey` | v2/catchup.go:1048-1060 | the mark, held for the key |
| `OwedSync.OwedLedger.OweForFreeze` | v2/catchup.go:1080-1091 | the mark, held for the freeze |
| `OwedSync.OwedLedger.AskOwed` | v2/catchup.go:1276-1332 | the pass: each free zone asked once, ended by the first full queue; every mark queued, dropped, left as it is or waiting for room, exactly as the next says |
| `OwedSync.OwedLedger.ReleaseKeyOwed` | v2/catchup.go:1063-1078 | the key's hold alone is lifted |
| `OwedSync.OwedLedger.ReleaseFreezeOwed` | v2/catchup.go:1094-1109 | the freeze's hold alone is lifted |
| `OwedSync.OwedLedger.ClearOwed` | v2/catchup.go:1156-1165 | the mark goes |
| `OwedSync.EveryMarkIsAccountedFor` | v2/catchup.go:1276-1281 | in every run each mark is still owed or ended once: queued, dropped or cleared; no mark is queued twice |
| `OwedSync.WhatAPassDoes` | v2/catchup.go:1282-1332 | of every mark: reached before a full queue it is queued when it applies, is caught up, not held and has room; dropped when it applies no more, or is free and not to be asked; else it stays with its holds, and waits for room when it is free and a full queue ended the pass by then |
| `OwedSync.OwedExactlyUntilItEnds` | v2/catchup.go:1276-1303 | in every run a sync is owed exactly when a mark was made and has not ended so, nor been cleared, since |
| `OwedSync.WhatWaitsIsNotLost` | v2/catchup.go:1298-1303 | a mark that waits for the key, the freeze or the catch-up is still owed, and waits still, after any run in which that does not come, the zone goes on applying and its chain does not end |
| `OwedSync.OnlyTheFreeAreQueued` | v2/catchup.go:1282-1332 | a pass queues a zone's sync exactly when it is owed, applies, is caught up and not held, the queue has room, and no free zone before it found it full |
| `OwedSync.TheHoldsAreThoseSet` | v2/catchup.go:144-161 | a mark is held exactly by what was set since it was made and not lifted |
| `OwedSync.QueuedOnlyWhenNothingHoldsIt` | v2/catchup.go:1282-1303 | so a queued sync was held by neither, whatever the order |
| `LookupBook.Lookups.NoteRefused` | v2/agent_discovery.go:203-213 | the count, and whether to go on |
| `LookupBook.Lookups.BookRefused` | v2/agent_discovery.go:214-232 | the check again, and the booking, unless no zone names the peer |
| `LookupBook.Lookups.FreshLookupDue` | v2/agent_discovery.go:157-171 | booked exactly when the interval has passed |
| `LookupBook.Lookups.NoteHelloAccepted` | v2/agent_discovery.go:238-247 | the count starts over, the book stays |
| `LookupBook.LookupsAreAnIntervalApart` | v2/agent_discovery.go:107-121 | two look-ups of one peer are the interval apart however the calls' holds interleave |
| `LookupBook.BookedExactlyWhenAnIntervalAgo` | v2/agent_discovery.go:157-232 | in every run a look-up asked for is booked exactly when every one booked for the peer is an interval ago |
| `LookupBook.TheCountIsOfTheRefusals` | v2/agent_discovery.go:123-128 | the count is of the refusals since the peer last took a hello or a beat |
| `LookupBook.AfterThreeRefusals` | v2/agent_discovery.go:203-232 | a look-up booked by a refusal follows three in a row, at its call's first hold |
| `EditTables.EditStore.NextEditID` | v2/db_combiner_edits.go:17-40 | one more than the largest id of the three tables |
| `EditTables.NextIsNew` | v2/db_combiner_edits.go:17-40 | which names nothing |
| `EditTables.TheSavedIsNamed` | v2/db_combiner_edits.go:42-57 | an edit saved under it is the row it names then, pending, and every other id names what it named |
| `EditTables.EditStore.SavePendingEdit` | v2/db_combiner_edits.go:42-57 | the row, unless one pending has its id |
| `EditTables.EditStore.ApprovePendingEdit` | v2/db_combiner_edits.go:119-178 | the row moves to the approved, and is returned |
| `EditTables.EditStore.RejectPendingEdit` | v2/db_combiner_edits.go:180-236 | the row moves to the rejected, and is returned |
| `EditTables.EditStore.ResolvePendingEdit` | v2/db_combiner_edits.go:238-318 | the portions in their tables, the rejected one under a new id |
| `EditTables.EditStore.ClearPendingEdits` | v2/db_combiner_edits.go:397-412 | one zone's rows go and every other zone's stay as they are, or all go for no zone; the number is of the rows gone |
| `EditTables.EditStore.ClearApprovedEdits` | v2/db_combiner_edits.go:416-431 | the same of the approved |
| `EditTables.EditStore.ClearRejectedEdits` | v2/db_combiner_edits.go:435-450 | the same of the rejected |
| `EditTables.ClearingIsForOneZone` | v2/db_combiner_edits.go:395-450 | a clear of one zone leaves every other zone's ids naming what they named, and the next id falls back exactly when the largest went |
| `EditTables.EveryRunIsUnique` | v2/db_combiner_edits.go:17-57 | with the id taken and used as one step an id names at most one row over the three tables, in every run |
| `EditTables.MovingLosesNothing` | v2/db_combiner_edits.go:119-236 | approving and rejecting lose and copy nothing |
| `EditTables.ResolvingSplits` | v2/db_combiner_edits.go:238-318 | a resolved edit leaves the pending ones, each portion under an id of its own |
| `EditTables.SavingKeepsUniqueWhenFree` | v2/combiner_msg_handler.go:156-171 | a save under an id taken earlier keeps the ids unique exactly when it names nothing approved or rejected by then |
| `EditTables.AnIdTakenTwice` | v2/combiner_msg_handler.go:156-171 | an edit resolved in between with a rejected portion takes the same id |
| `Verdicts.VerdictCache.HoldsKey` | v2/apirouter_sync.go:222-229 | noted less than the hold ago |
| `Verdicts.VerdictCache.TakeKey` | v2/apirouter_sync.go:231-243 | the check and the note in one |
| `Verdicts.VerdictCache.PassLocked` | v2/apirouter_sync.go:253-265 | the note, with what is too old forgotten |
| `Verdicts.KeptIsSound` | v2/apirouter_sync.go:253-265 | what is kept is of the full log, and what is not is too old |
| `Verdicts.AnswersAsTheLog` | v2/apirouter_sync.go:222-229 | with readings that do not go back in lock order every answer is the full log's |
| `Verdicts.TwoWinsAreApart` | v2/apirouter_sync.go:231-243 | two callers that win one key are the hold apart |
| `Verdicts.HeldUntilForgotten` | v2/apirouter_sync.go:222-265 | for readings in any order: after the last note of its key a taker wins within the hold exactly when a note of any key in between was made by a reading past it |
| `Verdicts.ALateReadingWinsAgain` | v2/apirouter_sync.go:231-243 | a reading that comes late to the lock wins again within the hold |

## Left out

- Transport, cryptography, DNS look-ups, goroutines and timers: their outcomes are the steps' parameters. Handlers, commands, status lines, logs and their clocks have no part.
- SQL and JSON: a table is a map or a set of rows, a transaction commits or changes nothing, and a hand-over's JSON is an exact round trip. The sets of two hand-overs are compared as values; a set that is nil and one that is empty are one set here as there.
- Names: zone names and identities are taken in their canonical form. A distribution's id is a number no two distributions share.
- Hand-over: the signer's variant of the tracker, the reading of instructions from records (a parameter), and the times an entry is held and a resend was logged. A pass over all zones is taken zone by zone in the protocol. The runs of the protocol have no forget (those of HandoverLife have), no hand-over without instructions and no lost store, and all serials within one half of the circle.
- Gated updates: the queue answers an update put on it at most once. An update answered twice may wait twice, and then the accounting is not claimed. Its runs have no restart of the agent, with which all that waits is lost.
- Projection: provider zones, the signature TXT, the clear and reapply commands, and owners below the apex, whose original content the program does not keep. The types are those the combiner accepts from agents. A refresh is one step, taken while no combine is in flight: its draft's combine takes the same lock as theirs, and one of the live zone that falls between the upstream's snapshot and the publishing of the new copy is not modelled. What a combine's copy finds of a merge that changes under it is a parameter of its steps. The class's own copy is of a merge that stands still (`CombinerZone.ZoneAtCombiner.CombineInput`). Whether the edits are to be applied is read before the copy, and a combine may start under any policy here. RRsets are sets of records there, so the order of records, their TTLs and signatures are not seen; a persistence callback that is not set is not modelled.
- Combine over lists: one RRset is, with the lists it has (`ServedLists.CombineOneList`); the loops over RRsets and the contribution calls are over sets alone.
- Restarts and REPLACE: what an agent hydrates is a parameter of its restart; the combiner's contributions are taken to be as they were.
- ReplaceGuard: the save of an origin is part of the step that notes it; the data engine makes both, one REPLACE at a time. The dedup of KEY and CDS contributions between local and remote agents is not modelled.
- Catch-up: which zones are shared and who votes are parameters; so are the own read and the time of the last beat, and with them the reason a beat asks for. The key rounds and the notes of a parent that is down are not modelled. Waking a sender has no state.
- LookupBook: the second reading of the clock in one hold is taken to be the first.
