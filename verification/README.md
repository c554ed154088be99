# rlmwatch: what its failsafes promise

rlmwatch watches a reinforcement-learning run on a rented GPU pod and spends, saves or ends it on its
own authority. This project models the parts that hold that authority and proves what they keep over
whole runs, for every input, every failure of an outside call and every interleaving.

| files | what is modelled |
|---|---|
| `Verdicts`, `Config`, `Probes` | verdicts and levels; validation, stall thresholds, spend; the liveness and cost probes |
| `Ladder`, `Escalation` | the escalation ladder: its state as a value and what every call does to it; the object with its fields, each method proved equal to that |
| `BatchRefinement` | `handle_batch` against `handle` in sequence |
| `LadderTraces`, `LadderInvariant`, `LadderRuns`, `LadderOrder` | what every run of `handle`, `handle_batch` and `shutdown` keeps, read off its trace of effects |
| `LadderFilings`, `LadderAudit` | the record every reading leads to, in every run; how far each probe may go, and whether the steps on record were taken |
| `Sentinel`, `SentinelObject` | one sweep and the polling loop as functions; the sentinel object driving a ladder object |
| `SentinelRuns`, `SentinelBounds`, `SentinelLatency`, `SentinelMoney` | why a watch ends; the latency of the dead man's switch, the startup deadline and any probe at L4; how far past either cap a watch can run |
| `SentinelOutage`, `SentinelWitnesses` | what a W&B outage can and cannot do, with a concrete sweep for each way it ends in a kill |
| `Handshake` | the L3 checkpoint handshake between the ladder and the training loop, interleaved step by step |
| `Watchdog`, `WatchdogRaces`, `WatchdogTick` | the trainer's calls against the ticking thread, with the probe's unlocked reads; the watchdog's sweep and exits |
| `Trend`, `ShapeProbes`, `Ema` | the least-squares slope and the probes that decide on it; the moving average |
| `StepRate`, `History` | seconds per step, the current step and a metric's window, from W&B history |
| `FlagSearch` | which experiment arm a config selects, and misplaced flags |
| `Gate`, `Signals` | the startup gate and its enforcement; SIGTERM and SIGINT, wherever they land on the main thread |

Everything outside is an answer the model takes as given: `Env.calls` says how the outside calls of the
n-th action turn out, a `Sweep` what the world answers during one sweep, `clock` what the clock reads.
A theorem over all of these covers every failure pattern. Times and amounts are real numbers.
"A kill is attempted" means that `_terminate` got as far as its kill: it called RunPod, whatever came of
that, or it had no client or no pod name to call with and said so.

The state-changing objects (`EscalationLadder`, `Sentinel`, `Watchdog`, `CheckpointHooks`) are classes.
Their methods are proved equal to functions on values, and the theorems are about those functions and
about all sequences of them.

## Where the code and its documentation differ

* "A network partition cannot kill a healthy pod" (`rlmwatch/actions.py:20-22`) holds for the ladder
  (`LadderRuns.BlindnessNeverEscalates`). The sentinel can attempt a kill in an outage in three ways: W&B
  unreadable past the startup deadline before the run is known to have started; neither upstream
  answering for the dead man's timeout; a cap read as reached twice, be it only on the monitor's own
  clock (`rlmwatch/probes/cost.py:31-32`). `SentinelOutage.OutageKillsExactly` says that these are all of them, and
  `SentinelWitnesses` shows each.
* The gate's comment says its failure is handled at "L0-L2" (`rlmwatch/probes/startup.py:775`). Without a
  re-poll the record stops at L1 and no snapshot is taken: `Gate.UnconfirmedFailureStopsAtNotify`.
* The entropy probe "warns on a monotone decline" (`rlmwatch/probes/rlm.py:107`). It does so exactly when
  the slope of its whole window is negative too: `ShapeProbes.DeclineIsWarnedIff`, with a decline it
  misses in `ShapeProbes.DeclineAfterAJumpIsMissed`.
* Halting is described as saving at a safe point (`rlmwatch/watchdog.py:121-125`). The loop's look and the
  ladder's request can miss each other: `Handshake.LostHandshake`, and exactly when in
  `Handshake.HaltedLoopSavedIffItLooked`.
* The step counter reads its two stamps without the lock. A first reading can fail at the very moment the
  loop beats: `WatchdogRaces.TornReadFailsFalsely`, and exactly when in `WatchdogRaces.FalseAlarmIff`.
* The re-poll of a late start can return no verdict, and then the handler raises out of the sweep
  (`rlmwatch/sentinel.py:216`, `rlmwatch/actions.py:331-336`;
  `SentinelWitnesses.StartedAfterAllRaises`). `handle_batch` reads the same re-poll inside
  its `try`. Both are modelled as they are.
* The watchdog's re-poll of the step counter does not refresh `now`, so on a silent loop it repeats the
  first reading rather than taking a second: `WatchdogRaces.QuietRepollRepeats`.
* A dry run is said to cap every probe at L1 (`rlmwatch/sentinel.py:321-323`). The startup deadline and the
  dead man's switch are not among the probes it caps. What keeps the pod is that a dry run has no RunPod client:
  `LadderAudit.DryRunSpares`.
* Validation does not look at the storage price, so an accepted budget may have spend that falls over
  time: `Config.AcceptedSpendMayShrink`. The spend bound states its hypothesis instead.

## Model

| member | source | states |
|---|---|---|
| `Config.StallBudgetIsPositive` | rlmwatch/config.py:123-148 | an accepted threshold table leaves time in every phase, measured or not |
| `Config.AcceptedExactly` | rlmwatch/config.py:96-344 | a configuration is accepted if and only if every delay, budget and threshold is positive, the warning is below the cap, both actions exist, the dead man waits longer than a confirmation, and no pod with the only checkpoints would be deleted |
| `Config.Resolve` | rlmwatch/config.py:123-134 | a fixed phase gets its own seconds, an unknown one the default, an unmeasured `auto` phase the floor, and a measured one the least budget that is at least the floor and the multiple of what was measured |
| `Config.SpendIsMonotoneIff` | rlmwatch/config.py:224-231 | spend never falls with time if and only if compute plus storage costs at least nothing per hour |
| `Config.SpendByTheMonth` | rlmwatch/config.py:224-231 | 730 hours cost their hours and one month of storage, and any other time its share of that |
| `Config.AcceptedSpendMayShrink` | rlmwatch/config.py:211-222 | validation accepts a budget whose spend falls: it never looks at storage |
| `Probes.OutageSilencesProbes` | rlmwatch/probes/liveness.py:31-188 | with W&B unreadable and both caps unreached, the only probe that can fail is the one reporting a pod already gone |
| `Probes.SilenceOnlyWorsens` | rlmwatch/probes/liveness.py:31-54 | more silence never gives a milder verdict; it warns exactly past three fifths of the phase's own budget and fails exactly past all of it |
| `Probes.SpendingOnlyWorsens` | rlmwatch/probes/cost.py:43-93 | neither the spend nor the wall-clock verdict ever becomes milder as hours are billed; each fails exactly at its cap and is silent exactly below its warning share of it |
| `Probes.DisagreementExactly` | rlmwatch/probes/liveness.py:155-188 | fails exactly on a running pod over a run that is over, well or badly; warns exactly on a pod that is gone under a running run; unknown exactly without either observer |
| `Probes.OneObserverExactly` | rlmwatch/probes/liveness.py:31-140 | exactly what makes the run state, the pod status and the GPU probe fail, pass or stay silent |
| `Escalation.EscalationLadder.constructor` | rlmwatch/actions.py:137-166 | a new ladder remembers nothing, has done nothing and has neither latch set |
| `Escalation.EscalationLadder.ResolveStatus` | rlmwatch/actions.py:177-195 | returns the promoted status and starts, keeps or clears that probe's blindness clock and no other's |
| `Escalation.EscalationLadder.Decide` | rlmwatch/actions.py:199-218 | an `ok` is decided as a line in the log, a `warn` as a message and a `fail` as its probe's own level, each as it was heard; an `unknown` never goes past a message; only the blindness clock moves |
| `Escalation.EscalationLadder.RequestCheckpoint` | rlmwatch/actions.py:396-396 | the request is made, and raises when the trainer does |
| `Escalation.EscalationLadder.WaitForCheckpoint` | rlmwatch/actions.py:397-397 | the wait is made, and gives what the trainer gives or raises |
| `Escalation.EscalationLadder.Alert` | rlmwatch/actions.py:417-422 | the alert is attempted, and raises when W&B does |
| `Escalation.EscalationLadder.FinishRun` | rlmwatch/actions.py:423-428 | the flush is attempted, and raises when W&B does |
| `Escalation.EscalationLadder.Kill` | rlmwatch/actions.py:437-447 | the chosen kill is attempted, and raises when RunPod does |
| `Escalation.EscalationLadder.CheckpointAndHalt` | rlmwatch/actions.py:391-400 | true exactly when the trainer took the request and a wait saw the save; requests before it waits, whichever raises |
| `Escalation.EscalationLadder.TerminatePod` | rlmwatch/actions.py:402-448 | alert, flush and kill are each attempted when present, whatever raised before; the latch is set only by a kill call that went through |
| `Escalation.EscalationLadder.Execute` | rlmwatch/actions.py:338-372 | every level up to the target in order; a missed checkpoint raises the record to L4 |
| `Escalation.EscalationLadder.Finish` | rlmwatch/actions.py:230-248 | updates the probe's memory, both latches, the history and the trace, and nothing else |
| `Escalation.EscalationLadder.Confirm` | rlmwatch/actions.py:322-336 | waits and re-polls when it can; confirmed only by a second `fail`; raises on a re-poll without a verdict |
| `Escalation.EscalationLadder.Settle` | rlmwatch/actions.py:266-274 | an unconfirmed escalation becomes a warning at L1 |
| `Escalation.EscalationLadder.Handle` | rlmwatch/actions.py:250-274 | the whole new state of one handled verdict, and exactly when handling raises |
| `Escalation.EscalationLadder.DecideSweep` | rlmwatch/actions.py:293-293 | all verdicts of a sweep are decided before any is acted on |
| `Escalation.EscalationLadder.ConfirmSweep` | rlmwatch/actions.py:299-308 | one wait, then one re-poll for each escalating verdict and no other, answers kept per verdict |
| `Escalation.EscalationLadder.SettleSweep` | rlmwatch/actions.py:310-320 | acts in sweep order, each verdict on its own confirmation |
| `Escalation.EscalationLadder.HandleBatch` | rlmwatch/actions.py:276-320 | the whole new state of one sweep, one record per verdict |
| `Escalation.EscalationLadder.Shutdown` | rlmwatch/actions.py:452-492 | requests without waiting, notifies, alerts, flushes, kills by the chosen action, and files that action; memory and halt latch stay |
| `BatchRefinement.ActingCommutesWithDeciding` | rlmwatch/actions.py:199-248 | acting on one verdict does not change how the later ones of a sweep are decided or acted on |
| `BatchRefinement.BatchRefinesSequence` | rlmwatch/actions.py:250-320 | the batch and the sequence of handles agree on records, memory, latches and visible effects; the sequence waits once per escalation, the batch at most once; the sequence completes exactly when no re-poll is empty |
| `LadderRuns.RunIsGood` | rlmwatch/actions.py:134-492 | every run of any calls keeps the ladder's whole invariant |
| `LadderRuns.NothingPastNotifyUnconfirmed` | rlmwatch/actions.py:250-372 | rule 1: every effect past a message belongs to a shutdown, or to a confirmed record whose probe said fail, waited the delay, and said fail again |
| `LadderRuns.ConfirmedMeansPastNotify` | rlmwatch/actions.py:230-274 | outside shutdowns, `confirmed` holds exactly when the level is past L1, and only for a fail |
| `LadderRuns.MemoryIsAFoldOverHistory` | rlmwatch/actions.py:230-248 | consecutive fails and highest level are what the history says since the probe's last LOG record, over any mix of calls |
| `LadderRuns.BlindnessIsTracked` | rlmwatch/actions.py:177-195 | `unknown_since` is when the probe's current maximal run of unknowns began, or nothing |
| `LadderRuns.BlindnessNeverEscalates` | rlmwatch/actions.py:177-218 | rule 2: an unknown is promoted exactly when its run has lasted the tolerance; it is logged as it was heard, or as a warning that is notified about, and nothing else |
| `LadderRuns.EffectsMatchLevel` | rlmwatch/actions.py:338-372 | levels are cumulative: what a record logs, sends, dumps and requests can be read off its level |
| `LadderFilings.OkIsLogged` | rlmwatch/actions.py:199-241 | in every run an `ok` leads to a LOG record of that very verdict, and to one line in the log |
| `LadderFilings.WarnIsNotified` | rlmwatch/actions.py:199-248 | in every run a `warn` leads to an L1 record of that very verdict, one line and one message |
| `LadderFilings.FailIsFiled` | rlmwatch/actions.py:199-274 | in every run a `fail` is filed at its own level as heard, if that is no further than a message or its second opinion is in the trace, and otherwise as one unconfirmed warning at L1; unless its call raised, which takes a re-poll with no verdict |
| `LadderFilings.RunIsFiled` | rlmwatch/actions.py:199-320 | every run keeps this for all its readings, over any mix of calls, with none overlooked but those whose call raised |
| `LadderFilings.HandlingRaisesIff` | rlmwatch/actions.py:322-336 | handling raises exactly on a `fail` that may go past L1 and a re-poll with no verdict |
| `LadderFilings.HandleEscalatesIff` | rlmwatch/actions.py:250-274 | from any state: one record, past L1 if and only if the verdict said fail, may go that far, and said fail again |
| `LadderFilings.BatchEscalatesIff` | rlmwatch/actions.py:276-320 | from any state: one record for each verdict of a sweep, each past L1 if and only if that verdict said fail, may go that far, and said fail again |
| `LadderFilings.ShutdownExactly` | rlmwatch/actions.py:452-492 | from any state: what a shutdown files and sets, and that it requests without waiting, tells, and ends in the kill it was told to make or else the one configured |
| `LadderAudit.NothingPastItsLevel` | rlmwatch/actions.py:170-175 | in every run no probe dumps, halts or kills beyond the level it is overridden to, or else its default |
| `LadderAudit.OnlyTheseKill` | rlmwatch/actions.py:56-86 | without overrides a kill outside a shutdown is for a cap, for one of the four signs that nothing trains, or for a training metric whose checkpoint could not be had |
| `LadderAudit.DryRunSpares` | rlmwatch/sentinel.py:317-342 | without a RunPod client no run calls a kill or ends with the pod known to be down |
| `LadderAudit.AuditIsTrue` | rlmwatch/actions.py:338-372 | a record's steps are what was done for it: each step is there if and only if its effect is in the trace |
| `LadderRuns.NoLimbo` | rlmwatch/actions.py:359-400 | a handled record is at L4 exactly when a kill was attempted for it, and one that stays at L3 has its checkpoint |
| `LadderRuns.LatchesTellTheTruth` | rlmwatch/actions.py:359-448 | `halt_requested` says some handled record reached L3; `terminated` says some kill call went through |
| `LadderRuns.DeletionDiscipline` | rlmwatch/config.py:326-344 | under an accepted config the pod is deleted only if checkpoints are on a network volume or a shutdown was told to delete |
| `LadderOrder.OrderOnTheWayDown` | rlmwatch/actions.py:338-492 | rule 3: every action's effects are in order and skip no due stage, whatever raises; a checkpoint request that was taken is waited for before anything further down |
| `LadderOrder.KillFollowsItsFlush` | rlmwatch/actions.py:402-448 | every kill is last in its action, after that action's own alert and flush attempts |
| `SentinelObject.Sentinel.constructor` | rlmwatch/sentinel.py:72-99 | a new sentinel counts silence from the pod's creation |
| `SentinelObject.Sentinel.CheckStartupDeadline` | rlmwatch/sentinel.py:103-150 | a verdict only past the deadline with nothing seen; the latch is set by any sign of a start |
| `SentinelObject.Sentinel.CheckDeadMansSwitch` | rlmwatch/sentinel.py:152-171 | fires exactly when the silence is at least the timeout |
| `SentinelObject.Sentinel.LateTick` | rlmwatch/sentinel.py:213-224 | handles, then shuts down; raises when the re-poll finds a run that has started |
| `SentinelObject.Sentinel.AskProbes` | rlmwatch/sentinel.py:226-236 | one verdict per probe, in order and under its name; a crash is blindness |
| `SentinelObject.Sentinel.Tick` | rlmwatch/sentinel.py:206-270 | the whole new state of one sweep, filed and counted unless it raised, with the spend so far and the spend projected for the full wall clock |
| `SentinelObject.Sentinel.Finished` | rlmwatch/sentinel.py:292-308 | over exactly when W&B reads the run as ended and RunPod reads the pod as not running |
| `SentinelObject.Sentinel.Run` | rlmwatch/sentinel.py:272-290 | the loop is the watch function: same final state, same reason to stop, results filed |
| `SentinelRuns.TickGrows` | rlmwatch/sentinel.py:206-270 | a sweep only adds to the trace, and one that reports `terminated` did attempt a kill |
| `SentinelRuns.AfterKeeps` | rlmwatch/sentinel.py:206-270 | no sequence of sweeps breaks the ladder's invariant |
| `SentinelRuns.SweepEscalatesIff` | rlmwatch/sentinel.py:226-250 | a sweep files one record for each probe in order, past L1 if and only if the probe said fail, may go that far and said fail again when asked again; a probe that crashes at either look never gets there |
| `SentinelRuns.WatchEndsForAReason` | rlmwatch/sentinel.py:272-308 | a watch is whole sweeps and ends at its tick limit, after a kill attempt, in a sweep that read the run as ended and the pod as not running, or by a late start whose re-poll had no verdict |
| `SentinelRuns.WatchStopsAtOnce` | rlmwatch/sentinel.py:272-308 | no sweep before a watch's last gave a reason to stop, and a tick limit is never exceeded |
| `SentinelRuns.NothingEndedItSooner` | rlmwatch/sentinel.py:272-308 | no sweep before a watch's last raised, reported a termination, left the pod known to be down, or read the run as ended and the pod as not running |
| `SentinelRuns.LivePodIsWatched` | rlmwatch/sentinel.py:292-308 | a watch whose sweeps all read the pod as running, or cannot read it, is not ended by the run being over |
| `SentinelRuns.LatchIsSetExactly` | rlmwatch/sentinel.py:103-150 | exactly when a sweep is a late start, exactly when it leaves the startup latch set, and exactly when it raises |
| `SentinelRuns.StartupLatchHolds` | rlmwatch/sentinel.py:103-150 | once set the latch stays set, no later sweep takes the startup shutdown, and none raises |
| `SentinelBounds.LastContactIsExact` | rlmwatch/sentinel.py:252-254 | `last_contact` is the last look of the last sweep that got past the startup check and reached an upstream |
| `SentinelBounds.SwitchFiresExactly` | rlmwatch/sentinel.py:152-171 | a sweep past the startup check is ended by the switch if and only if nothing answered in it and nothing has for the timeout |
| `SentinelBounds.DeadManLatency` | rlmwatch/sentinel.py:152-308 | when nothing answers any more, a sweep the loop does reach attempts a kill within timeout + P + 2D of the last contact |
| `SentinelLatency.LateStartKillsOrRaises` | rlmwatch/sentinel.py:213-224 | a late start raises exactly when its re-poll is empty and it wanted one, and otherwise attempts a kill |
| `SentinelLatency.FailingTwiceKills` | rlmwatch/sentinel.py:226-250 | a sweep in which a probe at L4 fails at both looks attempts a kill unless it raises |
| `SentinelLatency.AlarmsAreAnswered` | rlmwatch/sentinel.py:206-290 | anything that makes a completed sweep kill is answered by the first sweep that shows it, if no kill was attempted before, unless the watch had ended |
| `SentinelLatency.StartupLatency` | rlmwatch/sentinel.py:103-150 | a run that never shows a start meets a kill attempt by the deadline + P + 2D, unless run and pod were over before any sweep came late |
| `SentinelLatency.ProbeLatency` | rlmwatch/actions.py:276-320 | what makes a probe at L4 fail at both looks of every sweep from some time on meets a kill attempt within P + 2D of that time, unless the watch had ended |
| `SentinelLatency.WedgedLoopLatency` | rlmwatch/probes/liveness.py:31-54 | a training loop that stops logging meets a kill attempt within its phase's budget + P + 2D of the last thing it logged, unless the watch had ended |
| `SentinelLatency.EmptyPodLatency` | rlmwatch/probes/liveness.py:155-188 | a pod that bills on once its run is over, be it a clean exit, meets a kill attempt within P + 2D of the time from which both observers show it, unless the watch had ended |
| `SentinelMoney.CapBreachKills` | rlmwatch/probes/cost.py:43-93 | a sweep that reads a cap as reached attempts a kill unless it raises: the re-poll cannot disagree |
| `SentinelMoney.MetersByUptimeOrClock` | rlmwatch/probes/cost.py:18-32 | billed time is not behind while RunPod answers, and behind by the pod's head start when only the monitor's clock is left |
| `SentinelMoney.CapOvershoot` | rlmwatch/probes/cost.py:43-93 | for either cap and whatever RunPod answers: a kill is attempted within P + 2D of a time by which the cap was not overrun, unless the watch ended before a completed sweep read it as reached |
| `SentinelMoney.SpendOvershoot` | rlmwatch/probes/cost.py:43-69 | in dollars: the first attempt comes before spend passes the cap by more than the burn of P + 2D and the meter's lag |
| `SentinelMoney.WallClockOvershoot` | rlmwatch/probes/cost.py:72-93 | in hours: likewise for the wall-clock cap |
| `SentinelOutage.OutageNeverKills` | rlmwatch/sentinel.py:206-270 | with the startup latch set, RunPod readable and caps unreached, a W&B outage of any length leads to messages only |
| `SentinelOutage.OutageKeepsWatching` | rlmwatch/sentinel.py:272-308 | and the polling loop takes every sweep there is, or as many as its tick limit allows |
| `SentinelOutage.DarkSweepKillsIff` | rlmwatch/actions.py:276-320 | without W&B a sweep's verdicts end in a kill exactly when both looks of a cap's probe read its cap as reached |
| `SentinelOutage.OutageKillsExactly` | rlmwatch/sentinel.py:206-270 | over any outage, whatever RunPod does, a kill is attempted if and only if some sweep came past the deadline of a run not known to have started, or fell silent for the dead man's timeout, or read a cap as reached twice |
| `SentinelOutage.OutageWithRunPodKillsExactly` | rlmwatch/sentinel.py:115-140 | with RunPod answering and caps unreached only the startup deadline is left, again if and only if |
| `SentinelWitnesses.LateOutageKills` | rlmwatch/sentinel.py:138-221 | a concrete sweep: RunPod answers, W&B does not, the deadline is past, and a kill is attempted |
| `SentinelWitnesses.SilenceKills` | rlmwatch/sentinel.py:254-266 | a concrete sweep: the run is known to have started, both upstreams are silent for the timeout, and a kill is attempted |
| `SentinelWitnesses.OwnClockKills` | rlmwatch/probes/cost.py:31-69 | a concrete sweep: one minute of silence, the cap reached on the monitor's own clock, and a kill is attempted |
| `SentinelWitnesses.StartedAfterAllRaises` | rlmwatch/sentinel.py:213-217 | a concrete sweep: startup looks late, the re-poll finds it done, and the sweep raises |
| `Handshake.CheckpointHooks.constructor` | experiments/v0_smoke/train_hooks.py:103-105 | nothing requested, nothing saved |
| `Handshake.CheckpointHooks.RequestCheckpoint` | experiments/v0_smoke/train_hooks.py:107-110 | returns at once, with only the request set |
| `Handshake.CheckpointHooks.WaitForCheckpoint` | experiments/v0_smoke/train_hooks.py:112-118 | always ends, and is true exactly when a poll before the deadline saw the save |
| `Handshake.ExecKeepsInv` | experiments/v0_smoke/train_hooks.py:136-158 | every interleaving keeps the handshake's invariant: who has asked, looked, saved and reported |
| `Handshake.ReportsAreTrue` | experiments/v0_smoke/train_hooks.py:112-152 | a save is reported only after the loop completed one it began after a request |
| `Handshake.WaitingIsBounded` | experiments/v0_smoke/train_hooks.py:112-118 | no interleaving makes a wait poll more often than the timeout allows, and a waiting ladder can always go on |
| `Handshake.SaveIsNoticed` | experiments/v0_smoke/train_hooks.py:112-118 | a wait polls again within a second, and reports a save it finds before its deadline; past the deadline it reports none |
| `Handshake.WaitEnds` | experiments/v0_smoke/train_hooks.py:112-118 | a wait left to itself ends from any state, with a report: none of a save where there is none |
| `Handshake.HaltEndsTheLoop` | experiments/v0_smoke/train_hooks.py:136-158 | once halted, under every interleaving and saved or not, the loop trains for at most one more step, its next look at the halt is its last move, and it makes at most five moves |
| `Handshake.UnhaltedLoopGoesOn` | experiments/v0_smoke/train_hooks.py:136-158 | a loop nobody halts is over exactly when it has run out of steps, or training or saving has raised |
| `Handshake.LoopIsNeverStuck` | experiments/v0_smoke/train_hooks.py:136-158 | a loop that is not over has a move to make, in any state |
| `Handshake.HaltedLoopSavedIffItLooked` | experiments/v0_smoke/train_hooks.py:149-158 | a halted loop has saved if and only if some request preceded one of its looks |
| `Handshake.LostHandshake` | experiments/v0_smoke/train_hooks.py:149-158 | a concrete interleaving ends halted and requested with nothing saved, its exit's shutdown meeting a ladder that still waits |
| `Handshake.UnsavedIsNeverReported` | experiments/v0_smoke/train_hooks.py:112-158 | after a loop is over unsaved, no later wait reports a save, under any interleaving |
| `Handshake.UnsavedGoesToL4` | rlmwatch/actions.py:359-372 | so an action aimed at a halt whose wait reported then is recorded at L4 and attempts a kill |
| `Handshake.SavedStaysAtL3` | rlmwatch/actions.py:359-372 | and one whose wait reported a save stays at L3, with no kill |
| `Watchdog.Watchdog.constructor` | rlmwatch/watchdog.py:45-75 | starts with baselines and an empty shared dictionary |
| `Watchdog.Watchdog.Phase` | rlmwatch/watchdog.py:79-88 | afterwards the phase is the one named, it started at the clock, the beats are counted from zero, and nothing else has changed; the three writes come in that order |
| `Watchdog.Watchdog.Heartbeat` | rlmwatch/watchdog.py:90-99 | one more beat is counted, then `step_updated_at` and then `now` are the clock, and nothing else has changed |
| `Watchdog.Watchdog.Step` | rlmwatch/watchdog.py:101-109 | the step, both stamps and the maximum if given are written, then whatever else was passed over them; phase and baselines stay |
| `Watchdog.Watchdog.SetBaseline` | rlmwatch/watchdog.py:111-113 | that baseline is the one measured, and nothing else has changed |
| `Watchdog.Watchdog.StampNow` | rlmwatch/watchdog.py:132-133 | a tick's write under the lock is `now` alone |
| `Watchdog.Watchdog.CheckStep` | rlmwatch/probes/liveness.py:201-216 | unknown exactly without a step or a stamp; fail exactly when `now` is further past the stamp than the phase's threshold; never a warning |
| `Watchdog.StampsAreOrdered` | rlmwatch/watchdog.py:79-140 | in every schedule, `step_updated_at` ≤ `now` ≤ clock whenever the lock is free |
| `Watchdog.StepKeepsOrderIff` | rlmwatch/watchdog.py:101-109 | exactly when a `step` call leaves `step_updated_at` ≤ `now`: after its keyword arguments have overwritten either stamp with a value of their own |
| `Watchdog.JudgedInItsPhase` | rlmwatch/watchdog.py:79-113 | in every schedule a verdict on the step counter is judged by the threshold of the phase declared last, with every baseline measured so far |
| `WatchdogRaces.FailMeansSilence` | rlmwatch/probes/liveness.py:201-216 | however torn its reads, a poll fails only more than the threshold after every beat stamped before it read the stamp |
| `WatchdogRaces.BeatStopsConfirmation` | rlmwatch/watchdog.py:152-155 | a beat during the confirmation delay makes the re-poll say ok until the threshold has passed again |
| `WatchdogRaces.RepollsWait` | rlmwatch/actions.py:322-336 | in every schedule only a first reading that failed is re-polled, and not before the confirmation delay has passed |
| `WatchdogRaces.WaitLeadsToARepoll` | rlmwatch/actions.py:322-336 | and it is re-polled: from any wait there is a schedule without the trainer to a second note, which says what the memory says |
| `WatchdogRaces.QuietRepollRepeats` | rlmwatch/watchdog.py:130-155 | with no trainer call in between, check and re-poll say the same whatever the clock does |
| `WatchdogRaces.CallRunsItsProgram` | rlmwatch/watchdog.py:79-113 | in the interleaved model a call nobody interleaves with does what the watchdog's method does |
| `WatchdogRaces.FalseAlarmIff` | rlmwatch/probes/liveness.py:201-216 | without a beat between the read of the stamp and the verdict a fail is true; with the latest beat inside the threshold it fails exactly when a beat came in between and the `now` read lies further than the threshold past the stamp read |
| `WatchdogRaces.TornReadFailsFalsely` | rlmwatch/probes/liveness.py:201-211 | two beats between the two unlocked reads make a first reading fail at the moment the loop beats, with no gap over the threshold |
| `WatchdogTick.Sweep` | rlmwatch/watchdog.py:142-160 | the watchdog's sweep is the sequence of handles over its probes and never raises |
| `WatchdogTick.SerialSweepIsABatch` | rlmwatch/watchdog.py:142-155 | confirming serially does what one batch would, but for one wait per escalation |
| `WatchdogTick.TickEscalatesIff` | rlmwatch/watchdog.py:142-155 | a tick files one record for each probe in order, past L1 if and only if the probe said fail, may go that far and said fail again |
| `WatchdogTick.BeatStaysAtNotify` | rlmwatch/actions.py:250-274 | in every schedule a beat during the ladder's wait keeps the step counter's record at L1 or below, unless the threshold has passed again |
| `WatchdogTick.Leave` | rlmwatch/watchdog.py:190-206 | every way out of the block shuts down once and attempts a kill; only a crash is filed as a failure; the pod is known to be down unless that call could not be made or raised |
| `Trend.DenominatorIsPositive` | rlmwatch/probes/health.py:37-37 | the denominator is n(n²−1)/12, never zero from two points on |
| `Trend.SlopeIsLeastSquares` | rlmwatch/probes/health.py:29-38 | the slope belongs to the one line with the least squared residuals; every other line has strictly more |
| `Trend.SlopeIsExactOnLines` | rlmwatch/probes/health.py:29-38 | on points of a line it is that line's slope |
| `Trend.SlopeRescales` | rlmwatch/probes/health.py:29-38 | scaling the samples scales the slope and shifting them leaves it alone |
| `Trend.SlopeIsOdd` | rlmwatch/probes/health.py:29-38 | played backwards a series has the opposite slope |
| `Trend.RisingSlope` | rlmwatch/probes/health.py:29-38 | a series that never falls has a slope of at least zero, zero only if it never moves |
| `Trend.FallingSlope` | rlmwatch/probes/health.py:29-38 | a series that never rises has a slope of at most zero, zero only if it never moves |
| `ShapeProbes.DegeneracyIsCaught` | rlmwatch/probes/rlm.py:399-426 | rising reward over falling turns and no more non-trivial work always fails once histories are long enough |
| `ShapeProbes.DegeneracyExactly` | rlmwatch/probes/rlm.py:399-426 | over all windows: fails if and only if all are readable, turns and reward have ten samples, and the best-fitting lines rise for reward, fall for turns and do not rise for ten or more non-trivial samples; unknown exactly on an unreadable or short history |
| `ShapeProbes.HealthIsNotDegeneracy` | rlmwatch/probes/rlm.py:399-426 | never with a reward that never rises, turns that never fall or growing non-trivial work |
| `ShapeProbes.DegeneracyIgnoresUnits` | rlmwatch/probes/rlm.py:399-426 | the criterion does not depend on the units of its metrics |
| `ShapeProbes.DegeneracyHasADirection` | rlmwatch/probes/rlm.py:399-426 | a run and the same run backwards are never both degenerate |
| `ShapeProbes.HackingIsCaught` | rlmwatch/probes/rlm.py:362-384 | reward and KL that keep rising over an eval that never does are always warned about |
| `ShapeProbes.HackingExactly` | rlmwatch/probes/rlm.py:362-384 | over all windows: warns if and only if reward and KL rise on ten samples or more each over at least three evals that do not; unknown exactly on an unreadable or short history |
| `ShapeProbes.EntropyDeclineIsCaught` | rlmwatch/probes/rlm.py:113-136 | entropy that declines over its whole window is a warning, or a failure below the floor |
| `ShapeProbes.EntropyExactly` | rlmwatch/probes/rlm.py:113-136 | over all windows: fails exactly below the floor; warns exactly above it on ten samples whose best-fitting line falls and of which the last ten never rise; unknown exactly without a sample |
| `ShapeProbes.DeclineAfterAJumpIsMissed` | rlmwatch/probes/rlm.py:130-136 | a strict ten-step decline that draws no warning |
| `ShapeProbes.DeclineIsWarnedIff` | rlmwatch/probes/rlm.py:130-136 | a ten-step decline above the floor is warned about if and only if the window's slope is negative; a ten-sample window misses none that moves |
| `StepRate.CollapseSteps` | rlmwatch/clients/wandb.py:237-247 | one timestamp per step, from the usable rows only |
| `StepRate.EarliestIsEarliest` | rlmwatch/clients/wandb.py:237-247 | that timestamp is the least of the step's rows, and every step with a usable row has one |
| `StepRate.CollectDeltas` | rlmwatch/clients/wandb.py:251-263 | the seconds per step between consecutive steps over which time moved on |
| `StepRate.MedianOf` | rlmwatch/clients/wandb.py:264-270 | nothing for no step times; otherwise the mean of the two sorted times equally far from both ends, which is one time where they are odd in number |
| `StepRate.SecondsPerStep` | rlmwatch/clients/wandb.py:207-270 | the rate is a function of the earliest timestamps alone |
| `StepRate.RateIgnoresOrder` | rlmwatch/clients/wandb.py:230-247 | order and repetition of rows change nothing |
| `StepRate.RateIgnoresLaterRows` | rlmwatch/clients/wandb.py:230-247 | later rows for steps already seen change nothing |
| `StepRate.RateIgnoresStart` | rlmwatch/clients/wandb.py:207-270 | adding a constant to every timestamp changes nothing |
| `StepRate.RateSurvivesOutliers` | rlmwatch/clients/wandb.py:253-270 | if fewer than half of the step times lie outside [a, b], the rate lies inside |
| `StepRate.RateIsPositive` | rlmwatch/clients/wandb.py:258-270 | a rate is always positive |
| `StepRate.RateExistsIff` | rlmwatch/clients/wandb.py:249-265 | there is one exactly when time moved on between two consecutive steps seen |
| `StepRate.SteadyRunIsExact` | rlmwatch/clients/wandb.py:207-270 | a steady run is measured exactly, whichever of its steps were logged |
| `History.Highest` | rlmwatch/clients/wandb.py:192-200 | the highest whole step among the numbers there are, or nothing |
| `History.LatestStep` | rlmwatch/clients/wandb.py:161-205 | the training step wherever a row has one; W&B's counter only when none does; the summary only after both |
| `History.MetricWindow` | rlmwatch/clients/wandb.py:272-299 | the last n finite samples, oldest first: all of them if there are fewer, or if n is zero |
| `History.FiniteKeepsSamples` | rlmwatch/clients/wandb.py:282-298 | samples that are there are all kept, as they are and in order |
| `History.WindowIgnoresGaps` | rlmwatch/clients/wandb.py:272-299 | missing samples anywhere change no window |
| `History.WindowIsRecent` | rlmwatch/clients/wandb.py:272-299 | once n newer finite samples are there, older ones do not matter |
| `Ema.Smooth` | rlmwatch/digest.py:101-109 | one average per value: the first value, then the recurrence, in which two of span + 1 shares go to the new value |
| `Ema.AverageIsGeometric` | rlmwatch/digest.py:101-109 | the closed form: geometric weights on the recent values and the rest on the first |
| `Ema.AverageStaysInRange` | rlmwatch/digest.py:101-109 | an average never leaves the range of the values it has seen |
| `Ema.AverageFollows` | rlmwatch/digest.py:101-109 | on values that never fall it never falls and never runs ahead |
| `Ema.AverageForgets` | rlmwatch/digest.py:101-109 | two histories that agree from some point on have averages whose difference decays by a fixed factor |
| `FlagSearch.ReadFlagIsExact` | experiments/v0_smoke/verify_ablation.py:64-77 | the live tables' one truth value, nothing without the flag, an error exactly when two differ |
| `FlagSearch.LiveTablesSit` | experiments/v0_smoke/verify_ablation.py:80-94 | every live table is the table at its place in the tree |
| `FlagSearch.LiveIsOnPath` | experiments/v0_smoke/verify_ablation.py:80-94 | a table is live if and only if it is an `orchestrator.train.env.args` table, of the one environment or of one in the array |
| `FlagSearch.EnvEntryFails` | experiments/v0_smoke/verify_ablation.py:88-88 | the search raises exactly when the file, `orchestrator` or `train` is there and is no table |
| `FlagSearch.WalkIsComplete` | experiments/v0_smoke/verify_ablation.py:115-130 | the walk finds nothing exactly when every table with the flag below it is live |
| `FlagSearch.WalkIsSound` | experiments/v0_smoke/verify_ablation.py:115-130 | what it finds is such a table and not live |
| `FlagSearch.MisplacedFlagIsExact` | experiments/v0_smoke/verify_ablation.py:113-132 | nothing is misplaced if and only if every table holding the flag, anywhere, is live |
| `FlagSearch.ArmIsCertified` | experiments/v0_smoke/verify_ablation.py:46-132 | with b read and nothing misplaced every occurrence in the tree has truth value b and there is one; with nothing read there is none |
| `Gate.RunGate` | rlmwatch/probes/startup.py:732-746 | the probes' verdicts in order, up to and including the first failure; a crash is a failure |
| `Gate.FailureIsFirst` | rlmwatch/probes/startup.py:684-690 | `failure` is the first fail, and is absent exactly when the gate passed |
| `Gate.GateShortCircuits` | rlmwatch/probes/startup.py:732-750 | at most one failure, in last place; passes exactly when every probe would answer, none with a `fail`: a crash fails the gate |
| `Gate.CrashIsASubstring` | rlmwatch/actions.py:474-474 | a failed gate's shutdown is filed as a crash exactly when the probe's name contains "crash" |
| `Gate.GateAndEnforce` | rlmwatch/probes/startup.py:755-792 | the ladder's whole new state; with a way to publish, exactly one of publishing `startup_ok` and attempting a kill happens |
| `Gate.UnconfirmedFailureStopsAtNotify` | rlmwatch/probes/startup.py:772-775 | the failure's record stops at L1 unconfirmed and leads to messages only |
| `Gate.FailedGateKills` | rlmwatch/probes/startup.py:772-786 | a kill is attempted exactly on failure, only by `startup.on_failure`, whatever the steady-state policy |
| `Signals.Signal` | rlmwatch/actions.py:506-508 | on the object, for a signal that cuts no ladder call: the handler's shutdown, and the block's own only from the body |
| `Signals.CutIsABeginning` | rlmwatch/actions.py:506-508 | a call the signal cuts leaves the beginning of what the whole call would have left: as many of its effects as were made, no record, and the latch only if it would have been set |
| `Signals.SignalRecords` | rlmwatch/integration.py:143-188 | one record, the handler's L4 as no crash, wherever the signal lands, and the exit's L4 as a crash if and only if it lands in the body; a cut call files none |
| `Signals.SignalAttempts` | rlmwatch/integration.py:143-188 | there is always an attempt after the landing; there are two if and only if the signal lands in the body or cuts a shutdown that has made its own; and exactly when the pod is known to be down |

## Left out

- Detail texts, timestamps of verdicts, most evidence, log lines, notification rendering, sinks and heartbeat pings: they decide nothing here. `notify` and the diagnostics snapshot are taken not to raise.
- Floating-point rounding, NaN and infinities: amounts and times are real numbers, and samples are finite or missing.
- The digest text, provisioning, uploads, shell scripts, HTTP transport and its retries: plumbing.
- The other sections of a configuration (`expect`, `run`, `health`, `notify`), its parsing and its interpolation.
- Probes that compare one value with one threshold. In a sweep they are any answers; the outage theorems take them not to fail while W&B is unreadable, which is what their `unknown` branch says.
- `Escalation.EscalationLadder.Shutdown`: of the reason given, only whether it contains "crash" is kept.
- `Escalation.EscalationLadder.Execute`: a record is a value that is returned changed, where the original mutates the record it was given; nothing else holds that record meanwhile.
- `SentinelObject.Sentinel.Run`: runs over as many sweeps as the world offers; an exception raised by the loop's sleep or a keyboard interrupt is not modelled.
- `SentinelMoney.CapOvershoot`: the lag of the meter is a parameter, and the cap's probe is taken to answer; where a late start's re-poll raises, the original's loop ends, and with it any bound.
- `SentinelOutage.OutageKillsExactly`: for the default escalation levels of the two caps and of the pod's status.
- `SentinelBounds.DeadManLatency`: D bounds a whole sweep, its confirmation wait and the end-of-loop check included; the original sets no such bound on its calls.
- `Watchdog.StampsAreOrdered`: the monotonic clock is taken not to be negative, because a missing `now` is read as zero.
- `Signals.SignalAttempts`: one signal, and a tick thread that is outside the ladder; a second signal, and a shutdown interleaved effect by effect with another thread's call, are not modelled.
- `Signals.Signal`: a signal that cuts a call to the ladder is modelled on values.
- `SentinelLatency.StartupLatency`: the first sweep is taken to begin no later than P + D after the deadline, as `SentinelBounds.DeadManLatency` takes it after the last contact.
- `WatchdogTick.Sweep`: its probes are checked one after the other against given answers; the interleaved model of the unlocked reads covers the step counter only.
- `FlagSearch.MisplacedFlagIsExact`: the place found is given as child indices rather than as a dotted path; an unreadable file, which counts as no flag, is left out.
- `Gate.GateAndEnforce`: the measured baselines and the published payload are left out, and the search for "crash" in a probe's name does not fold case.
