# Verified model of GameServiceRuntime

This project models the parts of GameServiceRuntime that are hardest to get right and proves
properties of them in Dafny: the NHSK card game, the concurrency kernel of the runtime, the
drain, stop and recovery protocol, the settlement pipeline of the game framework, and the
discovery registry. `dafny verify dfyconfig.toml` checks all of it.

## What is modelled

**The NHSK battle** (`Cards`, `Deal`, `BattleModel`, `BattleInvariants`, `BattleRuns`,
`Battle`, `Settlement`, `SettlementPlan`). Card patterns and their order, the deal with its
two adjustments, and every command of a battle. `BattleModel` says what a command does to the
table as a function on values; `Battle` is the battle service as a class whose methods carry
the commands out step by step and are proved equal to those functions; the invariants are
proved of the functions and hold on every run. Cards are bytes, counters have their source
widths (`uint16` points, `uint32` verify codes, `uint64` revisions). A player is named by
seat, because the seating is injective and fixed while a subgame is played. The shuffle is an
arbitrary list of swaps, the clock appears as flags of the commands that look at it, and
output, replies and timers are taken to succeed.

**The runtime kernel** (`SchedulerModel`, `Scheduler`, `SchedulerRuns`, `SchedulerLimits`,
`Mailbox`, `Calls`, `PendingCalls`, `Runner`). Each is a state machine whose steps are the
atomic operations of the source: a compare-and-swap, a channel operation, a critical section.
Any number of threads interleave in any order. `Mailbox` and `PendingCalls` hold the
lock-protected objects as classes.

**Drain, stop and recovery** (`RefSets`, `ControlModel`, `ControlAgents`, `ControlMakers`,
`ControlDrains`, `ControlRuns`, `ControlServices`). The Directory is a register whose publish call compares the
version; other publishers may set any content at any time. A call may take effect late, or
after its caller gave up, and every reply may be lost.

**The settlement pipeline** (`PipelineModel`, `Pipeline`, `PipelineRuns`, `PipelineTransit`,
`PipelineProgress`, `PipelineLag`, `GameServices`). Battles, one wallet, ledger workers and an
initially empty in-memory ledger, joined by messages. What is kept is proved with messages that
may be lost or arrive repeatedly; what can still be reached, with messages that arrive once or are
lost, as the source sends them (`PipelineTransit`). Identifiers and names are numbers, 0 standing
for the empty text; amounts wrap around at 64 bits.

**Discovery** (`Discovery`). The registry as functions on values and as a class with its three
maps.

Where the code does not do what one would expect, the code is modelled as it is:

* A permit of the scheduler is lost for good whenever a new batch of a service sets the
  service's permit flag before the previous batch has cleared it (`SchedulerLimits.PermitLost`).
  Exactly one permit is lost for each such overlap, and the last one never
  (`SchedulerRuns.LeakIsOverlaps`, `SchedulerRuns.PermitComesBack`).
* Between closing the `done` channel and closing the ready queue the dispatcher may drop the
  service it has in hand (`SchedulerLimits.WakeupLostInShutdown`). While the ready queue is open
  a service with mail that nobody is about to schedule is on its way to run exactly when it is
  not the one the dispatcher dropped (`SchedulerRuns.NoLostWakeup`), and what was dropped is
  never run again (`SchedulerRuns.LostForGood`).
* Once `done` is closed a handler that returns from a call goes on without a permit. The batches
  at work exceed the permits by at most the number of times this happened
  (`SchedulerRuns.HandlersBounded`).
* Repeating a FinishBattle request is recognised exactly when its list of settlements is present
  and empty, since the stored copy holds blank settlements (`GameServices.FinishTwice`).
* A wallet can show a balance that the ledger has left behind (`PipelineLag.WalletCanLag`). It
  agrees, at every point of every run, exactly when the entries committed since its last update
  cancel out (`PipelineRuns.AgreesExactly`).
* A settlement that the wallet refuses as unavailable (`PipelineLag.RefusalLeavesBattleSettling`)
  is never reported to its battle, which settles for ever (`PipelineRuns.RefusedSettlesForever`).
  With the in-memory ledger, which rejects nothing, no battle ever fails
  (`PipelineRuns.NeverFailed`); the ledger store is an interface, and another one might.
* A wallet with as many pending requests as it may have turns a new one away without keeping it,
  and nobody sends it again: the battle settles for ever, though every message arrived and nothing
  was refused (`PipelineLag.FullWalletLeavesBattleSettling`). The same happens to the second of
  two battles that use one request number (`PipelineLag.ConflictLeavesBattleSettling`).
* Every message is sent once. A settling battle can still finish exactly when none of its requests
  is stuck (`PipelineProgress.FinishesExactly`): refused, in conflict with another request, never
  taken by the wallet and no longer on its way to it or kept out by requests that stay pending for
  ever, itself pending for ever, or committed without the battle knowing and the notice gone. A
  request stays pending for ever when neither a task nor an answer for it is on its way and nobody
  asks the wallet to recover it; the wallet has a command for that, which nothing in the repository
  sends.

## Model

| member | source | states |
|---|---|---|
| Cards.Classify | examples/nhsk/card_rules.go:26-65 | the counting loop returns exactly the pattern that the multiset of values has: all equal, three and two, or none |
| Cards.PatternByUniform | examples/nhsk/card_rules.go:51-62 | n equal playing values are a single, pair, triple or bomb of that value |
| Cards.PatternByFullHouse | examples/nhsk/card_rules.go:58-59 | three of one value and two of another are a three-two named by the triple |
| Cards.CompareCardSets | examples/nhsk/card_rules.go:76-106 | the comparison depends only on the two patterns |
| Cards.CompareAntisymmetric | examples/nhsk/card_rules.go:76-106 | swapping the arguments negates the comparison, for all card lists |
| Cards.CompareTie | examples/nhsk/card_rules.go:76-106 | sets of one kind and size tie exactly when they have the same pattern |
| Cards.BeatsIsStrictOrder | examples/nhsk/card_rules.go:76-113 | beating is irreflexive, asymmetric, transitive, and depends only on the multiset of values |
| Cards.ScoreCardsIn | examples/nhsk/card_rules.go:115-132 | returns the points of the cards, and the scoring cards in order |
| Cards.ScoreCardsKeepPoints | examples/nhsk/card_rules.go:115-132 | leaving out cards that score nothing keeps the points |
| Cards.PointsPermute | examples/nhsk/card_rules.go:115-132 | points depend only on the multiset of cards |
| Deal.SingleCards | examples/nhsk/battle.go:1644-1664 | returns one card for each value held exactly once, in ascending order of value, and no other |
| Deal.FindSwap | examples/nhsk/battle.go:1606-1634 | the nested search returns the first admissible swap, or proves that there is none |
| Deal.SwapDropsSingles | examples/nhsk/battle.go:1620-1630 | a swap removes one or two values from the singles of the hand, and no others |
| Deal.SwapStep | examples/nhsk/battle.go:1606-1634 | each swap permutes the deck and strictly lowers the number of singles in the hand |
| Deal.NoSwapNothingShared | examples/nhsk/battle.go:1606-1636 | with two singles, no admissible swap means that no other seat holds any value of the hand |
| Deal.ReduceSeat | examples/nhsk/battle.go:1600-1641 | one seat's pass ends, permutes the deck, leaves a hand within the limit alone, and ends within the limit or with nothing shared |
| Deal.SeatPassEnds | examples/nhsk/battle.go:1600-1641 | on a completely dealt deck of playing values, each at least twice in it, every pass ends within the limit |
| Deal.SwapSingleCards | examples/nhsk/battle.go:1594-1642 | the whole adjustment only permutes the deck and does nothing for degenerate arguments; on a complete deck with every value at least twice, each seat is within the limit at the end of its own pass |
| Deal.AdjustNewbieCards | examples/nhsk/battle.go:1574-1592 | only permutes the deck; on such a deck every pass of the first round ends within three singles, and either the selected seat is no worse than dealt or a second round follows whose passes end within four |
| Deal.BuildDeck | examples/nhsk/battle.go:1533-1540 | builds two packs of 52 |
| Deal.StandardDeckFacts | examples/nhsk/battle.go:1533-1540 | a standard deck has 200 points and eight cards of every value |
| Deal.PrepareDeck | examples/nhsk/battle.go:1527-1559 | a complete custom deck is dealt unchanged; otherwise a permutation of the standard deck is, whatever the shuffle and the adjustments do |
| Deal.DealIsWholeDeck | examples/nhsk/battle.go:1561-1572 | the four hands of 26 are together exactly the deck |
| BattleInvariants.ActConserves | examples/nhsk/battle.go:717-834 | an action conserves the cards in hands and played, and the points captured, on the table and played |
| BattleInvariants.PointsBounded | examples/nhsk/battle.go:822-834 | captured points and points on the table never exceed those of the deck, so the 16-bit counters cannot wrap |
| BattleInvariants.AdvanceSeatOrder | examples/nhsk/battle.go:1691-1702 | the search skips exactly the seats that cannot act, counts each as a pass, and keeps the active seat in step with the pass count |
| BattleInvariants.TrickEndsExactly | examples/nhsk/battle.go:1359-1365 | a trick ends exactly when every other seat has passed or been skipped since the last play |
| BattleInvariants.ActKeepsTurn | examples/nhsk/battle.go:730-806 | an action keeps the turn order: the active seat has cards, and follows the last play by one seat for each pass |
| BattleInvariants.ActKeepsRanks | examples/nhsk/battle.go:773-801 | finished seats hold the ranks 1 to their number, each once |
| BattleInvariants.ActEndsPlay | examples/nhsk/battle.go:773-801 | play ends with exactly one team out, completed by the last seat to finish, and no points left on the table |
| BattleInvariants.MeasureDrops | examples/nhsk/battle.go:717-806 | every action lowers four times the cards held plus the passes the standing play allows |
| BattleInvariants.ActKeepsTricks | examples/nhsk/battle.go:733-746 | every trick's record is ascending, and the card set to beat is its last play |
| BattleInvariants.AscendingPairs | examples/nhsk/battle.go:733-746 | in one trick every play beats every earlier play |
| BattleModel.LowestIsLeast | examples/nhsk/battle.go:808-820 | the automatic card is held and is the lowest of the hand |
| BattleRuns.StepInv | examples/nhsk/battle.go:258-315 | every command, accepted or not, keeps all invariants |
| BattleRuns.ReachableInv | examples/nhsk/battle.go:258-315 | on every run of commands from a new battle: conservation of cards and points, turn order, ranks, end of play, action count and ascending tricks |
| BattleRuns.TwoHundredPoints | examples/nhsk/battle.go:822-834 | on every run, while a shuffled standard deck is in play, captured points, points on the table and points in hands are always 200 |
| BattleRuns.WinnerTakesTrick | examples/nhsk/battle.go:1469-1491 | the points of a trick go to the seat that played last in it, exactly when the trick or play ends; that seat leads next, or its partner if it is out |
| BattleRuns.AutoAccepted | examples/nhsk/battle.go:808-820 | in every reachable playing state of a shuffled deck the automatic move is accepted |
| BattleRuns.TimersFinish | examples/nhsk/battle.go:1168-1199 | 416 automatic or timeout moves bring every reachable playing state of a shuffled deck to its settlement |
| BattleRuns.OpportunityUsedOnce | examples/nhsk/battle.go:724-726 | after an accepted play no request with the same verify code is accepted before the next subgame, whatever commands come between |
| BattleRuns.MoveFences | examples/nhsk/battle.go:1371-1408 | every command that plays fences off the turn revision it was played in |
| BattleRuns.StaleForever | examples/nhsk/battle.go:1168-1199 | a timer or AI result for a fenced revision changes nothing after any further run, across subgames |
| NHSKBattle.HoldsAll | examples/nhsk/battle.go:1715-1738 | a hand holds the cards exactly when their multiset is contained in it |
| NHSKBattle.RemoveAll | examples/nhsk/battle.go:1740-1751 | removes the first occurrence of each card in turn |
| NHSKBattle.BattleService.AdvanceSeat | examples/nhsk/battle.go:1691-1702 | the loop finds the seat that the model finds |
| NHSKBattle.BattleService.FinishTrick | examples/nhsk/battle.go:1469-1491 | credits the trick, passes the lead to the winner or the winner's partner, and resets the trick |
| NHSKBattle.BattleService.AwardFinalScoreCards | examples/nhsk/battle.go:822-834 | credits what is on the table to the last player |
| NHSKBattle.BattleService.ValidateCards | examples/nhsk/battle.go:1715-1738 | accepts exactly the legal and held card sets |
| NHSKBattle.BattleService.PlayWithSource | examples/nhsk/battle.go:717-806 | the reply and the whole new state are those of the model, for every request |
| NHSKBattle.BattleService.LocalAutoCards | examples/nhsk/battle.go:808-820 | leads the lowest card and otherwise passes |
| NHSKBattle.BattleService.Prepare | examples/nhsk/battle.go:456-471 | prepares only between subgames, and accepts exactly when the table then prepares that very subgame, whose numbers are not zero |
| NHSKBattle.BattleService.Start | examples/nhsk/battle.go:473-542 | deals and clears every record of the last subgame |
| NHSKBattle.BattleService.FireTimer | examples/nhsk/battle.go:1168-1199 | acts only for the current turn revision of a playing battle |
| NHSKBattle.BattleService.ApplyAIResult | examples/nhsk/battle.go:1430-1459 | acts only on a result for this game, turn, code and seat that is a valid candidate |
| NHSKBattle.BattleService.SetAuto | examples/nhsk/battle.go:642-669 | sets automatic play, and plays at once when it is that player's turn and early |
| Settlement.CalculateSubgameResult | examples/nhsk/settlement.go:21-111 | the stepwise calculation is the function that the laws below are about |
| Settlement.ZeroSum | examples/nhsk/settlement.go:84-101 | for all ranks, points and automation flags the four multiples sum to zero and stay within -4 and 2 |
| Settlement.JudgeByRoles | examples/nhsk/settlement.go:44-83 | the three branches are exactly the finishing team holding ranks one and two, one and three, or two and three, decided by the roles and not by seats |
| Settlement.ResultSymmetric | examples/nhsk/settlement.go:21-111 | swapping two partners swaps their multiples and nothing else; moving everybody one seat on flips the winning team and moves the multiples along |
| Settlement.PlayEndsTerminal | examples/nhsk/battle.go:773-801 | on every run, a battle that awaits its settlement has ranks of one of the three kinds |
| Settlement.ResultScoreMatrix | examples/nhsk/settlement.go:139-156 | a losing seat pays its counterpart one unit first and the rest to the other winner |
| Settlement.MatrixBalances | examples/nhsk/settlement.go:139-156 | payments are not negative, no seat pays itself, and what a seat receives less what it pays is its multiple |
| SettlementPlan.BuildSettlementRequest | examples/nhsk/settlement.go:113-137 | lists the positive payments in row-major order and the four players with their flags |
| SettlementPlan.ReadPlan | examples/nhsk/battle.go:1103-1162 | accepts exactly the acceptable reports, and reads each seat's net gain and flags; a failed settlement gives the failed plan |
| SettlementPlan.PlanConserves | examples/nhsk/battle.go:1103-1162 | every accepted plan sums to zero and decides every seat |
| SettlementPlan.AccumulatorsFit | examples/nhsk/battle.go:1143-1153 | at most twelve 32-bit gains are added, so the 64-bit sums never overflow |
| SettlementPlan.SettlementRoundTrip | examples/nhsk/settlement.go:113-137 | the report built from any result is accepted for the same four users, and the plan read back is exactly the multiples with no extra flags |
| Scheduler.DoKeeps | runtime/scheduler.go:26-118 | one atomic operation of one thread keeps the accounts of its service and its permit |
| Scheduler.StepInv | runtime/scheduler.go:26-131 | every step keeps: at most one right to run a service, none without the ready flag, mail is never forgotten, permits cover all live batches; the leak grows exactly on an overlap |
| SchedulerRuns.OneBatchPerService | runtime/scheduler.go:61-87 | in every interleaving at most one batch is inside a handler of a service, also while that handler waits in a call |
| SchedulerRuns.HandledInOrder | runtime/scheduler.go:61-87 | envelopes begin in acceptance order, at most once, one ending before the next begins; if none was thrown away, those begun and those waiting are all that were accepted |
| SchedulerRuns.NoLostWakeup | runtime/scheduler.go:26-118 | while the ready queue is open, a service with mail that is not finalized and that no thread is about to schedule is queued or owned if and only if it is not the one service that the dispatcher had in hand when it returned for `done` |
| SchedulerRuns.LostForGood | runtime/scheduler.go:35-60 | the service that the dispatcher dropped is never queued, owned or handled again in the rest of the run |
| SchedulerRuns.HandlersBounded | runtime/scheduler.go:89-118 | at every moment of every run live batches, pending and returning permits together exceed the permits taken by at most the handlers that went on without one, which happens only in shutdown; permits never exceed the workers |
| SchedulerRuns.PermitComesBack | runtime/scheduler.go:35-118 | when all permits are taken, some thread is about to give one back |
| SchedulerRuns.LeakIsOverlaps | runtime/scheduler.go:50-66 | exactly one permit is lost for each overlap of two batches, and at most all but one |
| SchedulerLimits.PermitLost | runtime/scheduler.go:50-66 | a run with two workers ends at rest with one permit lost |
| SchedulerLimits.WakeupLostInShutdown | runtime/scheduler.go:105-131 | a run in shutdown leaves a service with mail that nothing will run, while the ready queue is open |
| Mailbox.ServiceMailbox.PushEnvelope | runtime/mailbox.go:28-41 | refuses when closed, then when full, and otherwise appends |
| Mailbox.ServiceMailbox.PushStop | runtime/mailbox.go:43-52 | appends a stop request even beyond the capacity |
| Mailbox.ServiceMailbox.Pop | runtime/mailbox.go:54-67 | takes the first item |
| Mailbox.ReadyQueue.Push | runtime/ready_queue.go:13-22 | appends unless closed |
| Mailbox.ReadyQueue.Pop | runtime/ready_queue.go:23-37 | takes the first reference; a closed queue gives none |
| Mailbox.SendStep | runtime/runtime.go:208-226 | the mailbox and the scheduler's send step agree |
| Mailbox.HaltStep | runtime/lifecycle.go:21-33 | the mailbox and the step that begins a stop agree, with and without discarding |
| Mailbox.StopStep | runtime/lifecycle.go:34-39 | the mailbox and the step that leaves the stop request agree, and only a closed mailbox refuses it |
| Mailbox.CloseStep | runtime/mailbox.go:77-83 | closing the mailbox is the scheduler's closing step, and both kinds of push are refused from then on |
| Mailbox.PopStep | runtime/scheduler.go:67-76 | the mailbox and the head of the batch loop agree |
| PendingCalls.Table.Create | runtime/call.go:28-43 | finds the first session after the counter that is neither zero nor in use, and terminates unless all are in use |
| PendingCalls.Table.Take | runtime/call.go:49-59 | removes a call exactly when source, target, command and session match |
| PendingCalls.Table.FailWhere | runtime/call.go:68-107 | removes exactly the calls that a failing node, service or runtime concerns |
| PendingCalls.CreateStep | runtime/call.go:28-43 | creating a call is the turns of drawing and registering of its caller, up to the one that registers it |
| PendingCalls.TakeStep | runtime/call.go:49-66 | the table finds a reply's call exactly where the reply step completes one, and both agree after |
| PendingCalls.FailStep | runtime/call.go:68-107 | the table drops exactly the calls that the failing step answers, and both agree after |
| PendingCalls.RemoveStep | runtime/call.go:44-48 | removing a call is the caller's last step, and no later reply finds the call |
| Calls.StepInv | runtime/call.go:28-123 | every step keeps each call pending, held by one deliverer, or answered, never two of these |
| Calls.AnsweredOnce | runtime/call.go:60-123 | over every run a call gets at most one answer, which fits it, and whoever delivers it finds the slot empty |
| Calls.LiveSessionsDistinct | runtime/call.go:28-43 | sessions of pending calls are nonzero and distinct, also after the counter wraps |
| Calls.WaitersServed | runtime/call.go:158-198 | a caller that still waits is pending, being answered, or answered |
| Runner.StepInv | runtime/runner.go:106-278 | every step keeps each accepted task in exactly one place |
| Runner.CompletedAtMostOnce | runtime/runner.go:256-278 | no task is completed twice, and none that was not accepted |
| Runner.ClosedMeansComplete | runtime/runner.go:188-233 | when closing returns without error the queue is empty, every accepted task was completed exactly once, and the counters agree |
| RefSets.ExchangeSort | tooling/control/drain_service.go:725-731 | sorting distinct references in place gives a strictly sorted array of the same references |
| RefSets.RecoveredRefs | tooling/control/drain_service.go:718-733 | the strictly sorted union of the expected and the created references |
| RefSets.DrainTargets | tooling/control/drain_copy.go:65-83 | the strictly sorted difference of the original and the published references |
| RefSets.SortedUnique | tooling/control/drain_validation.go:139-149 | two strictly sorted lists of the same references are equal |
| ControlAgents.AgentStepSound | tooling/control/node_agent.go:131-221 | every step of an agent or its runner keeps at most one open job for a request and target |
| ControlMakers.MakerStepSound | tooling/control/node_agent.go:227-316 | every step of an agent or its recovery runner keeps at most one build for a request and removed service, none while the queue was full, and reports only what was made for it |
| ControlDrains.DrainStepSound | tooling/control/drain_service.go:895-1045 | every step of a drain keeps: what it recorded is what it asked for, its targets are what that removed, and it waits for visitors only when every target is guarded |
| ControlDrains.RecoveryStepSound | tooling/control/drain_service.go:480-669 | every step of a recovery keeps its candidate the sorted union without removed services |
| ControlRuns.StopAtMostOnce | tooling/control/stop_runner.go:91-149 | over one agent's lifetime Runtime.Stop is called at most once for a request and target, despite retries, late requests, full queues and lost results |
| ControlRuns.StopIsSafe | tooling/control/stop_runner.go:129-149 | what is stopped belongs to a drain that reached ReadyToStop, its guard is draining and drains for the rest of the run, and the Directory set read just before did not contain it |
| ControlRuns.CreateAtMostOnce | tooling/control/recovery_runner.go:80-166 | over one agent's lifetime Runtime.CreateService is called at most once for a request and removed service, despite retries, late requests, full queues and lost results |
| ControlRuns.CompletedStop | tooling/control/drain_service.go:820-846 | a completed stop has stopped each of its targets exactly once |
| ControlRuns.PublishAtMostOnce | tooling/control/drain_service.go:920-944 | each drain and each recovery calls publish at most once over any run |
| ControlRuns.RecordedPublish | tooling/control/drain_service.go:920-966 | a recorded publish is the requested content at the next revision, and the targets are what it removed |
| ControlRuns.CompletedRecovery | tooling/control/drain_service.go:639-669 | a completed recovery published the strictly sorted union of expected and created services at the next revision, and no removed one |
| ControlRuns.ReplacesEach | tooling/control/drain_service.go:550-669 | a completed recovery gave each target its own replacement, made for it by the one creation of its agent, and published exactly as many services more as were removed |
| ControlServices.Guard.Begin | tooling/drain/guard.go:88-108 | only the controller starts draining, and nothing ends it |
| ControlServices.Guard.Handle | tooling/drain/guard.go:63-78 | refuses exactly the external commands, exactly while draining |
| ControlServices.NodeAgent.BeginNodeStop | tooling/control/node_agent.go:131-221 | submits a task exactly when it is new or its receipt is pending, records the outcome, and replies with the receipt it then holds, or an error when that is of another task |
| ControlServices.NodeAgent.NodeStopResult | tooling/control/node_agent.go:172-198 | changes a receipt exactly while it is queued |
| ControlServices.NodeAgent.BeginRecoveryCreate | tooling/control/node_agent.go:227-316 | submits a replacement exactly when it is new or the queue was full, records the outcome, and replies with the receipt it then holds, or an error when that is of another task |
| ControlServices.NodeAgent.RecoveryCreateResult | tooling/control/node_agent.go:268-293 | changes a receipt exactly while it is creating, and for the same blueprint |
| ControlServices.ConcludeStop | tooling/control/drain_service.go:820-846 | one pass over the targets yields superseded if any is, waiting if any is open, failed if any failed, and completed otherwise |
| Pipeline.StepChain | game/wallet.go:105-177 | every step keeps the chain: messages, wallet, tasks, records, results and notices all speak of requests that their battle made |
| PipelineRuns.FinishedIsRecorded | game/battle.go:197-225 | each settlement of a finished battle stands in the ledger exactly once, with its own entries and source, and with the result that the battle holds |
| PipelineRuns.RefusedNeverRecorded | game/wallet.go:105-127 | a request refused as unavailable stays refused and never reaches the ledger |
| PipelineRuns.NeverFailed | game/battle.go:197-225 | with the in-memory ledger no run brings any battle to its failed phase |
| PipelineRuns.RefusedSettlesForever | game/wallet.go:118-125 | from a refusal on, the battle that made the request is settling at every later moment of every run |
| PipelineLag.RefusalLeavesBattleSettling | game/wallet.go:118-125 | a run in which a full ledger runner refuses a request and its battle is left settling |
| PipelineLag.FullWalletLeavesBattleSettling | game/wallet.go:115-117 | a run in which every commit arrives and none is refused, and a battle that no continuation finishes, because a full wallet turned its second request away |
| PipelineLag.ConflictLeavesBattleSettling | game/wallet.go:109-114 | a run in which two battles use one number, and a battle that no continuation finishes, because the wallet knows the other's request |
| PipelineTransit.PathIsRun | game/battle.go:184-189 | every state reached with messages that arrive at most once is reached by a run of the pipeline, so what all runs keep holds of it |
| PipelineProgress.StuckStays | game/wallet.go:105-177 | no step and no loss makes a stuck request move again |
| PipelineTransit.StepFit | game/battle.go:154-225 | every step keeps: requests of a battle were sent, committed results were announced, and a settling battle waits for something |
| PipelineProgress.FinishesExactly | game/battle.go:197-225 | with every message delivered at most once, in every reachable state a settling battle has a continuation that finishes it if and only if none of its requests is stuck: refused, conflicting, unheard by the wallet, pending for ever, or committed untold |
| PipelineRuns.BalancesAreSums | game/memory_ledger.go:21-51 | every ledger balance is the sum of the recorded deltas in 64-bit arithmetic |
| PipelineRuns.WalletBalanceIsPast | game/wallet.go:149-157 | at every moment of every run a wallet balance is the ledger's balance right after the last applied result that touches it |
| PipelineRuns.AgreesExactly | game/wallet.go:149-157 | at every moment of every run wallet and ledger agree about a balance exactly when the deltas committed after that result sum to zero |
| PipelineLag.WalletCanLag | game/wallet.go:149-157 | a run after which wallet and ledger show different balances |
| GameServices.MemoryLedger.Commit | game/memory_ledger.go:21-51 | commits a request once, repeats the recorded result for the same request, and refuses another one under its number |
| GameServices.MemoryLedger.AddAll | game/memory_ledger.go:44-48 | the running amounts reported are the amounts after all entries |
| GameServices.ProcessTask | game/ledger_runner.go:59-75 | a worker commits a request at most once, and whoever asks gets the one recorded result |
| GameServices.WorkStep | game/ledger_runner.go:59-75 | a worker that finds a record takes the looking-up step of the pipeline, and otherwise the committing step |
| GameServices.WalletService.PendingCount | game/wallet.go:179-187 | counts the pending results |
| GameServices.WalletService.Commit | game/wallet.go:105-127 | admits a new valid request while there is room, and answers each of the other cases |
| GameServices.WalletService.Apply | game/wallet.go:129-163 | applies a terminal result exactly once, to its own pending request |
| GameServices.RecoverSettles | game/wallet.go:165-177 | recovering a pending request settles it with the ledger's one record of it, committed now or before, and leaves nothing to recover |
| GameServices.CloneFinish | game/validation.go:109-115 | the copy has as many settlements as the original, all of them blank |
| GameServices.BattleService.Finish | game/battle.go:154-195 | every case of the reply, and settlements opened exactly for a running battle with valid and distinct intents, and a wallet if there are any |
| GameServices.BattleService.ApplySettlement | game/battle.go:197-225 | a terminal result is noted once; the battle finishes when all are committed |
| GameServices.RetryRecognised | game/battle.go:158-166 | a repeated finish request equals the stored one exactly when its list was present and empty |
| GameServices.FinishTwice | game/battle.go:154-166 | sending an accepted finish request again, after any results, gets the phase exactly when its list was present and empty, and a conflict otherwise |
| Discovery.StepIndexed | tooling/discovery/service.go:76-143 | every command keeps the two name views exact inverses, each binding under the current lease of its service's own node |
| Discovery.RunIndexed | tooling/discovery/service.go:161-329 | the same after every run of commands |
| Discovery.StaleStays | tooling/discovery/service.go:161-216 | no command makes a superseded, unregistered or expired lease current again |
| Discovery.ExpiredIsStale | tooling/discovery/service.go:307-313 | a lease past its expiry is stale after any command |
| Discovery.LeasesUnexpired | tooling/discovery/service.go:307-313 | after a command every lease left is unexpired |
| Discovery.StaleDoesNothing | tooling/discovery/service.go:184-286 | a heartbeat, unregistration or name change under a stale lease changes nothing |
| Discovery.LeaseSurvives | tooling/discovery/service.go:184-201 | a lease that is not past its expiry keeps its owner and its names through every command that does not end it, and a heartbeat extends it |
| Discovery.StaleForever | tooling/discovery/service.go:161-329 | a lease that is stale at some point of a run is stale at every later point |
| Discovery.Service.Remove | tooling/discovery/service.go:315-324 | deleting what the index lists leaves exactly the names of current leases |
| Discovery.Service.PruneExpired | tooling/discovery/service.go:307-313 | removes exactly the expired nodes and their names |
| Discovery.RepliesTell | tooling/discovery/service.go:161-286 | a refused command only expires nodes, a lease in a reply is current, its sender's and fresh, names are bound or gone as the reply says, and a lease is reported expired exactly when it is not current |
| Discovery.Service.Handle | tooling/discovery/service.go:76-143 | a command's reply and its effect on the three maps and the counter are those of the model |
| Discovery.Service.Resolve | tooling/discovery/service.go:288-297 | a name resolves exactly when it is bound, and its lease is current |

## Left out

- BattleRuns.OpportunityUsedOnce: speaks of one subgame, because verify codes start again at 1 with the next.
- BattleRuns.StaleForever: assumes that fewer than 2^64 turn revisions are used.
- Calls.WaitersServed: assumes that fewer than 2^64 sessions are drawn, because a removed session could otherwise belong to another call.
- Discovery.StaleForever: assumes that fewer than 2^64 generations are handed out.
- Deal.SwapSingleCards: bounds each seat at the end of its own pass and not at the end of all passes, because a later seat's pass may take cards from an earlier hand.
- ControlRuns.StopAtMostOnce: speaks of one agent lifetime, because receipts are kept in memory.
- ControlRuns.CreateAtMostOnce: speaks of one agent lifetime, for the same reason.
- ControlRuns.CompletedRecovery: assumes that the runtime never issues a reference twice, and that every set published by others, or asked for by a drain request, names issued references; the source does not look at that.
- RefSets.DrainTargets: the library sort of the source is modelled by the exchange sort of the recovery.
- SchedulerLimits.PermitLost: goroutines that a timed-out Stop leaves behind, which could still yield and resume, are not modelled.
- PipelineProgress.FinishesExactly: a wallet or a battle that is stopped while it settles is not modelled.
- PipelineRuns.NeverFailed: speaks of the in-memory ledger, whose results are committed; a ledger store that rejects would let battles fail.
- The battle's replay document, move statistics, dress, props, snapshots and scene payloads: records without influence on play.
- The banker is taken to be one of the four seats; a custom deck file guarantees this, a custom deck provided by command is not checked by the source.
- Failing output, reply and timer calls of a battle: they leave a handler half done.
- The coordinator of the drain protocol is modelled on values, one phase at a time, and not as a class; principals, audits, timestamps and visitor lists are left out.
- Timelines, rooms and players of the game framework, and the host and factory of NHSK battles.
- Contexts, wall-clock timeouts and panics: they appear only as nondeterministic outcomes.
- Remote transport, codecs, metrics, logging, configuration and the HTTP and TCP adapters: plumbing without a hard property.
- Freedom from deadlock between synchronous calls: the source detects cycles along one call path only.
