# Verification of the router's effort policy, ledger protocol and evaluation arithmetic

This project is a Dafny model of the parts of the router whose behaviour spans many calls:

- the between-turn effort policy, one plan at a time (`EffortPolicy`), read off the turn's own numbers (`Readings`), in
  order (`PolicyOrder`) and over whole replayed runs (`EffortReplay`, `ShippedArms`);
- the ledger of effort updates (`Ledger`), the session row and plan table it lives in (`Sessions`), the protocol that
  interleaves plan requests, executions and reconciliations between awaits (`Protocol`, `ProtocolLimits`, `OneChange`,
  `Lineage`), what the mode lets a decision do (`Decisions`), one managed request on every way it can end (`Execution`),
  and the waiting room of a turn (`TurnGuard`);
- the ladder a turn is planned on (`TurnLadder`), the one-rung step of a person's verdict (`Feedback`), and the
  fallback loop of an alias (`Fallback`);
- largest-remainder sampling (`Apportionment`), the card checksum (`Luhn`), the Wilson interval (`Wilson`), calibration
  error (`Calibration`), the permutation null (`MembershipNull`) and the threshold search (`TuneSearch`).

`Prelude` and `Arithmetic` hold the shared vocabulary. What the source computes with expressions is a function here;
what it does by updating an object, a dictionary or a list is a class or a method with its loop, proved against a
function, and the promises are lemmas about that function, stated as far as they go in the fields and numbers that a
caller can read. A coroutine is a sequence of atomic steps from one await to the next, and the theorems about the
protocol and the waiting room quantify over every list of such steps.

`dafny verify dfyconfig.toml` checks everything.

## What came out

Most of what the source and its comments promise holds as stated. These promises hold only under a condition, which is
proved to be the exact one:

- *Turning confirmations off never serves more turns adequately* (the comparison `evals/effort_replay.py` draws) holds
  for every list of turns exactly when the session's base is at or above its floor
  (`EffortReplay.NoHysteresisNeverBetterIff`). From below the floor one easy turn lifts the unconfirmed arm to the floor
  at once. The comparison of `upward: step` with `upward: jump` needs no such condition.
- *A recommendation is never below the floor* fails exactly when the session already runs below it and nothing in the
  turn speaks (`PolicyOrder.RecommendationBelowFloorIff`); a plan whose direction is `down` then raises the effort
  (`PolicyOrder.DownwardChangeDescendsIff`).
- *More demanding evidence never gets less effort* holds of the applied effort at a given rung, ladder and floor, for
  every history, exactly in these cases: the session is at or above its floor, and a downgrade goes one rung at a time,
  needs no waiting, or has at most one rung to go; or the session is below its floor and the quota threshold is zero
  (`PolicyOrder.MonotoneAtIff`). So below the floor it fails under every configuration with a positive threshold: an
  easy turn is lifted to the floor and a vaguer one is not.
- *One change at a time* fails even for a client whose plan requests never overlap and who sends only its newest plan,
  because a refused plan can be sent again while the next turn is being classified. The second change then opens either
  at its recording (`OneChange.OverlapLeavesTwoOpen`) or at the acceptance of the retry after it
  (`LateAcceptanceLeavesTwoOpen`). Under those two habits alone a run stays at one open change, in every state and
  however it goes on, exactly when each change it recorded found no open change and no execution still carrying a
  refused one (`OneChange.OneChangeIff`).
- *No change is recorded while lineage or compaction state is unknown* fails, because both are read before the classifier
  call and not again after it. A reply that ends unreadable meanwhile leaves an open change of the current epoch beside an
  unknown lineage (`Lineage.WrittenWithoutLineage`), and a compaction that never finishes leaves a change of the epoch
  before beside both (`WrittenWithoutCompaction`), though the client keeps to both habits above. Over every run, each
  change is written with both known exactly when no reply that ended since its plan request began was unreadable without
  a reconciliation after it, and no compaction ended unsettled without an accepted one after it (`Lineage.KnownIff`). A
  change of the current epoch never meets an unknown compaction state (`Lineage.CurrentChangeKnowsCompaction`).
- *The session row is the fold of the ledger's history*: a plan reconciled by hand while its reply still streams is
  spoken about twice, and the reply's end puts the session back on it. With one execution in flight at a time, row and
  history agree after every step of a run exactly when every reply whose plan was confirmed by hand ends while the
  history still stands at that plan's effort (`Protocol.LedgerRefinementIff`, and for one step
  `Protocol.LateReplyRefinesIff`).
- *A reconciliation hole stops every later change of its epoch*: the query behind it reads the newest 50 plans, so the
  hole is obeyed exactly while it is among them (`ProtocolLimits.HoleStopsChangeIff`); after 50 further turns a change is
  recorded again (`HoleForgotten`).
- *A fixed-effort session reads the same everywhere*: an accepted compaction writes the base effort that was read before
  the request went out. Base, effective, expected and confirmed effort agree throughout a run of verdicts and
  compactions exactly when, at every acceptance, the rungs that verdicts have moved the session since the send, clamped
  to the ladder's ends, come back to the rung of the send (`Feedback.InStepByVerdicts`).
- *Exactly one final status per request*: a request whose bookkeeping fails gives its claim up and is left `in_flight`;
  one final status is written exactly when the request was claimed and booked (`Execution.Request.Manage`).
- *The permutation bounds hold 95% of the null*: whatever is scored and drawn, they enclose 95% of the sampled scores for
  exactly the sample counts `m` whose `m - 1` leaves a remainder of 0 or of 19 to 39 on division by 40, the default
  10000 among them (`MembershipNull.NinetyFivePercentIff`). For every other count a run of two label classes falls short.
- *The checksum catches one wrong digit and most swaps of neighbours* in ASCII digits. The importer's `\d` also matches
  digits of other scripts, whose weights are shifted. In any script whose zero has code 53 or above, one wrong digit goes
  unnoticed exactly when it stands at an odd place from the right and is off by 5 (`Luhn.WrongDigitBeyondPassesIff`),
  while a swap of neighbours goes unnoticed exactly when they are equal, so that even 0 with 9 is caught
  (`Luhn.SwapBeyondPassesIff`).

## Model

| member | source | states |
|---|---|---|
| `EffortPolicy.NamedRung` | src/jev_router/effort.py:237-246 | `top` is the last rung, any other name is the rung of that name, and a name that is neither is no rung |
| `Prelude.IndexOfIsFirst` | src/jev_router/effort.py:172-178 | an effort's index is the position that holds it with no earlier one holding it, and no other |
| `EffortPolicy.DifficultyReachIsMax` | src/jev_router/effort.py:271-283 | the difficulty entries reach the highest rung any met entry names, and no less than the start |
| `EffortPolicy.TargetIsStrongestReading` | src/jev_router/effort.py:249-304 | under `jump` the target is the maximum of one more rung and every rung the evidence names, and is one of them; under `step` it is one more rung; it is always on the ladder |
| `EffortPolicy.TargetIndex` | src/jev_router/effort.py:249-304 | the loop and its nested `reach` compute that target |
| `EffortPolicy.ConfirmationsAreLongestSuffix` | src/jev_router/effort.py:327-339 | the count is the length of the longest suffix that recommends nothing else |
| `EffortPolicy.CountConfirmations` | src/jev_router/effort.py:327-339 | the backward loop with its break counts exactly that |
| `EffortPolicy.Bottom` | src/jev_router/effort.py:416-416 | the rung at the lowest index a recommendation may have is the floor itself, or the first rung when the floor is absent or off the ladder |
| `EffortPolicy.AskAnswersTo` | src/jev_router/effort.py:416-445 | an ask is upward if and only if the turn is answered and argues upward, and then whatever the pressure; downward if and only if it argues downward or, arguing neither way, meets the pressure; it moves the way it says and never past the floor |
| `EffortPolicy.Choose` | src/jev_router/effort.py:406-445 | the early returns of one turn choose that ask |
| `EffortPolicy.TurnPlan.Settle` | src/jev_router/effort.py:445-478 | filling the plan in place gives the weighed ask: held back below the needed confirmations, applied otherwise, nothing for the current rung |
| `EffortPolicy.TurnPlan.Block` | src/jev_router/effort.py:481-490 | a blocked plan keeps all it said and sends the effort it came from |
| `EffortPolicy.TurnPlan.HoldBack` | src/jev_router/app.py:1383-1386 | shadow keeps the recommendation and sends nothing different |
| `EffortPolicy.PlanTurn` | src/jev_router/effort.py:342-478 | the whole method returns a fresh plan whose fields are `Plan` |
| `Readings.DirectionByReadings` | src/jev_router/effort.py:181-445 | in the raw readings and bars: a plan goes up if and only if one of the four upward bars is met (a named defect only where neither the environment nor missing information failed) and there is a rung above; down if and only if none is, the turn is easy (no short continuation, difficulty and harm at or below their bars, no corrective reading at its bar) or the provider scarce, and the session is not on its lowest rung |
| `Readings.ShortContinuationNeverLowers` | src/jev_router/effort.py:307-324 | without scarcity a short continuation never lowers an effort, whatever else the turn says |
| `Readings.LandingByReadings` | src/jev_router/effort.py:403-478 | how far, in the raw readings: upward to the strongest rung anything asks for, at once; downward one rung, or all the way for an easy turn under `jump`, never below the floor, and if and only if enough turns before it asked for the same; otherwise nowhere |
| `Readings.FactsByReadings` | src/jev_router/effort.py:384-410 | what a plan records beside its decision: where it came from, base, floor and ladder as handed in, the pressure cut to the unit scale; a turn it cannot decide keeps the effort |
| `Readings.TargetByReadings` | src/jev_router/effort.py:418-446 | a target is recorded if and only if the turn meets an upward bar or is easy; it is what is recommended, unless the floor lies above it and is recommended instead |
| `Readings.ConfirmationsByReadings` | src/jev_router/effort.py:455-468 | confirmations are recorded if and only if the plan argues downward for another rung, and are the length of the run of turns that asked for it, this one included |
| `PolicyOrder.TargetMonotone` | src/jev_router/effort.py:249-304 | starting lower, climbing by steps or reading no more evidence never reaches further |
| `PolicyOrder.RecommendationMonotone` | src/jev_router/effort.py:416-446 | at or above the floor, raising difficulty, hardness, harm or a corrective follow-up never lowers the recommendation, and raising pressure never raises it |
| `PolicyOrder.PlanByPosition` | src/jev_router/effort.py:342-478 | a plan read as positions: what it recommends, where it leaves the session, when it is a change and in which direction |
| `PolicyOrder.PlanKeepsBelow` | src/jev_router/effort.py:342-478 | one turn keeps a session at or below another, and no further from its next downgrade where they meet, under `downward: step` |
| `PolicyOrder.MonotoneAtIff` | src/jev_router/effort.py:416-478 | at a given rung, ladder and floor the applied effort is monotone in the evidence, for every history, base, pressure and rule, if and only if: from the floor up, downgrades go by steps, need at most one confirmation or have at most one rung to go; below the floor, the quota threshold is not positive |
| `PolicyOrder.VagueTurnStays` | src/jev_router/effort.py:424-463 | below the floor with a positive threshold: a confirmed easy turn lands on the floor and a vaguer one stays below it |
| `PolicyOrder.AppliedMonotoneIff` | src/jev_router/effort.py:418-478 | over all sessions at or above their floor it is monotone if and only if downgrades go by steps or need at most one confirmation |
| `PolicyOrder.JumpKeepsHigherRung` | src/jev_router/effort.py:424-463 | with `downward: jump` and waiting, from two rungs above the floor on, some turn that argues for less keeps a higher rung |
| `PolicyOrder.DownwardChangeDescendsIff` | src/jev_router/effort.py:424-478 | a downward change lowers the effort if and only if the session was at or above the floor; below it, it lands on the floor |
| `PolicyOrder.RecommendationBelowFloorIff` | src/jev_router/effort.py:356-446 | a recommendation lies below the floor if and only if the session does and the turn is silent |
| `EffortReplay.PolicyTurn` | evals/effort_replay.py:217-231 | one turn of a policy arm advances the current rung and the recommendations |
| `EffortReplay.RunArm` | evals/effort_replay.py:197-244 | the loop over a session's turns yields, for every arm, the rows read off the recursive run |
| `ShippedArms.ReachingIsStrongest` | src/jev_router/effort.py:249-304 | with the shipped targets the strongest rung a demanding turn asks for is the highest of the floor, one more rung, `medium` from 1.8 and `high` from 2.6 of difficulty, and the top from 0.6 of hard mass or on a named defect |
| `ShippedArms.ArmIsWalk` | evals/effort_replay.py:197-231 | a whole run of each shipped policy arm is a walk over rungs by the shipped numbers that remembers one rung and the last thing asked for |
| `ShippedArms.RowByNumbers` | evals/effort_replay.py:180-244 | every row of every arm in rungs: what the fixed arms, the simple rule and the shipped policy arms send, how that compares with what was wanted, and whether it moved |
| `ShippedArms.TopIff` | evals/effort_replay.py:217-231 | a demanding turn of a jumping arm gets the top rung if and only if that is the next one or the floor, hard mass or a named defect asks for it, or its name is one whose difficulty is met; no admission rule has a part in it |
| `EffortReplay.ScoresAddUp` | evals/effort_replay.py:276-285 | from nothing, one more row adds one adequate turn when it is adequate, and overshoot adds up over the rows that have any, one that falls short taking nothing back |
| `EffortReplay.ScoresFollowRungs` | evals/effort_replay.py:276-285 | rows that are adequate wherever others are, and overshoot no more, score in that order |
| `EffortReplay.RunsStayBelow` | evals/effort_replay.py:197-244 | whole-run domination: two runs ordered at the start are ordered after every turn |
| `EffortReplay.Domination` | evals/effort_replay.py:197-244 | the same of the rungs sent, row by row, for comparable sessions and configurations |
| `EffortReplay.StepArmStaysBelow` | evals/effort_replay.py:74-78 | from any base, the arm that climbs by steps equals the jumping arm until they part, and stays below it after |
| `EffortReplay.StepArmNeverMoreAdequate` | evals/effort_replay.py:74-78 | on every valid session the step arm has no more adequate turns and overshoots no more |
| `EffortReplay.NoHysteresisNeverBetterIff` | evals/effort_replay.py:74-78 | the arm without confirmations is never better, whatever the turns, if and only if the base is at or above the floor |
| `EffortReplay.BelowFloorNoHysteresisWins` | evals/effort_replay.py:74-78 | from below the floor one easy turn makes it better |
| `EffortReplay.FloorKept` | evals/effort_replay.py:197-244 | a run never sinks below the floor, or below its start if that was lower |
| `EffortReplay.PlanShape` | src/jev_router/effort.py:445-478 | a change goes where it recommends, a downward one only after enough recommendations of that rung |
| `EffortReplay.DowngradeBudget` | evals/effort_replay.py:217-231 | the confirmations spent on downward changes, plus those any other rung has gathered, never exceed the turns taken |
| `EffortReplay.DowngradesArePaidFor` | evals/effort_replay.py:217-231 | downward changes times confirmations needed is at most the number of turns, in both downward modes |
| `Ledger.SettledIsForever` | src/jev_router/effort.py:535-568 | confirmed and outcome_unknown absorb every event |
| `Ledger.AcceptedTrace` | src/jev_router/effort.py:535-568 | from accepted the first completed, rejected or unknown event decides for good |
| `Ledger.StatusTrace` | src/jev_router/effort.py:535-568 | after any events from planned the status is the verdict of the first deciding events, and rejected is never reached after an acceptance |
| `Ledger.OpenChange` | src/jev_router/effort.py:496-507 | nothing if and only if no row is an open change, else the open change of highest sequence |
| `Ledger.ReconciliationHole` | src/jev_router/effort.py:510-532 | nothing if and only if no row is a hole, else the hole of lowest sequence |
| `Sessions.WindowIsNewest` | src/jev_router/sessions.py:938-946 | a plan query returns the last 50 rows of the table in its order, or all of them |
| `Sessions.Since` | src/jev_router/app.py:1598-1614 | a row is kept if and only if it is of this epoch or later |
| `Sessions.SinceKeepsOrder` | src/jev_router/app.py:1598-1614 | the kept rows stay in the table's order, each as often as it stands there |
| `Sessions.SessionStore.Claim` | src/jev_router/sessions.py:733-740 | a claim succeeds if and only if the bound is not reached, and then counts |
| `Sessions.SessionStore.Release` | src/jev_router/sessions.py:742-748 | a release gives one claim back and never goes below zero |
| `Sessions.SessionStore.Update` | src/jev_router/sessions.py:811-823 | compare-and-set on the version: all named fields or none |
| `Sessions.SessionStore.UpdatePlan` | src/jev_router/sessions.py:1013-1024 | one plan row is replaced |
| `Sessions.SessionStore.RecordPlan` | src/jev_router/sessions.py:982-1011 | a turn gets one row: a second plan for it returns the first |
| `Sessions.SessionStore.Compact` | src/jev_router/sessions.py:1123-1141 | a new epoch with a known compaction state |
| `Sessions.SessionStore.Reconcile` | src/jev_router/sessions.py:1026-1098 | only accepted and outcome_unknown rows are settled by hand, and what that does to row and session |
| `Sessions.Bookkeeper.Move` | src/jev_router/app.py:2054-2101 | one fact moves one row, an unreadable reply counts as unknown, and only a confirmed change moves the session's efforts |
| `Sessions.Bookkeeper.OpenCompactionEpoch` | src/jev_router/app.py:2116-2157 | a folded history opens an epoch and puts the session on the base effort of the row read before the send |
| `Sessions.Bookkeeper.MarkCompactionUnknown` | src/jev_router/app.py:2159-2175 | an ambiguous compaction marks compaction and lineage unknown |
| `Sessions.Bookkeeper.RecordObservation` | src/jev_router/app.py:2177-2190 | an observation with nothing in it writes nothing; an unreadable one makes the lineage unknown |
| `Sessions.Bookkeeper.RecordDecision` | src/jev_router/app.py:1369-1430 | after the classifier: a hole blocks a change, shadow holds it back, the row is written once, and a new change sets the expected effort |
| `Decisions.DecisionByMode` | src/jev_router/app.py:1369-1430 | the end of a plan request in raw fields: the row keeps the recommendation and the effort it came from; a change is blocked by a hole in either mode, held back in shadow and written with its effort live; only a live change without a hole moves the session, and of it only the expected effort, if and only if the version is the one read |
| `Decisions.RowsAreDecisions` | src/jev_router/app.py:1369-1430 | every row of every run is what one end of a plan request wrote, and no step rewrites it; no turn has two rows, sequence numbers rise, and a row names a confirmed effort if and only if its change was confirmed or it was applied by hand |
| `Decisions.ShadowMovesNothing` | src/jev_router/app.py:1383-1386 | over every run that plans in shadow, whatever is sent, answered, compacted or reconciled: no row is a change, effective and confirmed effort stay at the base, and the expected effort is that or what it was |
| `Decisions.EffortsMove` | src/jev_router/app.py:2054-2157 | every step but the end of a plan request moves effective, confirmed and expected effort together or not at all: to a change a reply confirms or a person says was applied, back to the confirmed effort where it was not, to the base a compaction was sent with when that is accepted |
| `Decisions.ReconciledByHand` | src/jev_router/sessions.py:1026-1098 | a row is settled by hand if and only if it was accepted or of unknown outcome: it ends confirmed or rejected, says so, keeps its decision and anchor, and the lineage is known again; of any other row nothing is written |
| `Protocol.TurnBeginsIff` | src/jev_router/app.py:1338-1345 | a classification begins if and only if the turn has no plan, nothing is in flight, lineage and compaction are known, and no change among the newest 50 plans of this epoch is unsettled |
| `Protocol.AcceptanceBooks` | src/jev_router/app.py:2722-2757 | an acceptance activates a session that was prepared, unless its row moved since the send, and anchors the carried plan where there is an anchor |
| `Protocol.ClaimsConserved` | src/jev_router/app.py:1872-1934 | under every interleaving the in-flight count is the number of executions that hold a claim, never above the bound |
| `Protocol.TellRefines` | src/jev_router/app.py:2054-2101 | one fact about a carried, unconfirmed plan moves the session as it moves the history |
| `Protocol.SettleRefines` | src/jev_router/sessions.py:1026-1098 | a hand reconciliation moves both alike and touches one row |
| `Protocol.RecordRefines` | src/jev_router/app.py:1369-1430 | recording a plan moves neither |
| `Protocol.LateReplyRefinesIff` | src/jev_router/app.py:2759-2799 | the end of a reply keeps row and history together if and only if its plan was not confirmed by hand, changes nothing, or names where the history stands |
| `Protocol.LooseStep` | src/jev_router/app.py:1257-2800 | every step of the protocol moves session row and history alike, except the harmful end of a reply, which parts them |
| `Protocol.SoundStep` | src/jev_router/app.py:1257-2800 | with quiet reconciliations every step keeps them together |
| `Protocol.LedgerRefinement` | src/jev_router/app.py:2054-2190 | in every state reachable with one execution at a time and quiet reconciliations, effective effort equals confirmed effort equals the fold of the confirmations since the last compaction, starting from the base |
| `Protocol.LedgerRefinementIff` | src/jev_router/app.py:2054-2190 | whoever reconciles what and when, with one execution at a time row and history agree after every step of a run if and only if every end of a reply in it is harmless |
| `ProtocolLimits.SerialStep` | src/jev_router/app.py:1257-2800 | every orderly step keeps all but the newest plan closed |
| `ProtocolLimits.OneChangeAtATime` | src/jev_router/app.py:1338-1430 | an orderly client never reaches two open changes of one epoch, nor a pending decision with unknown lineage or compaction |
| `OneChange.StackedStep` | src/jev_router/app.py:1338-1430 | under the two habits a clean step keeps every row below a change of the epoch dead |
| `OneChange.RecordingKeepsOneIff` | src/jev_router/app.py:1338-1430 | recording a change is safe, however the run goes on without recording more, if and only if no change is open and no execution carries a refused one; at the recording step itself the open changes decide |
| `OneChange.OneChangeIff` | src/jev_router/app.py:1338-1430 | under the two habits alone every state of a run, and every state it can go on to without recording more, has at most one open change if and only if each recorded change found no open change and no execution still carrying one |
| `OneChange.OverlapLeavesTwoOpen` | src/jev_router/app.py:1338-1430 | a concrete run under the habits: the retry is accepted, then the next change recorded, and two changes are open |
| `OneChange.LateAcceptanceLeavesTwoOpen` | src/jev_router/app.py:1338-1430 | a concrete run under the habits in which the recording still leaves one open change and the acceptance after it leaves two |
| `Lineage.FlagsStep` | src/jev_router/app.py:2054-2190 | a step loses the lineage only by an unreadable end and finds it only by a reconciliation; it loses the compaction state only by an unsettled compaction and finds it only by an accepted one, which alone moves the epoch |
| `Lineage.UnknownIffLost` | src/jev_router/app.py:2159-2190 | from a state that knows both, a later state knows neither more nor less than what was lost since and not found again |
| `Lineage.KnownAtIff` | src/jev_router/app.py:1338-1430 | a plan request that ends finds both known if and only if nothing lost since it began is still lost |
| `Lineage.KnownIff` | src/jev_router/app.py:1338-1430 | over every run, each change is written with lineage and compaction state known if and only if, since its plan request began, no reply ended unreadable without a reconciliation after it and no compaction ended unsettled without an accepted one after it |
| `Lineage.CurrentChangeKnowsCompaction` | src/jev_router/app.py:1338-1430 | over every run, a change of the current epoch is never written while the compaction state is unknown |
| `Lineage.WrittenWithoutLineage` | src/jev_router/app.py:1338-1430 | a concrete run under the habits: an unreadable reply ends during classification, and an open change of the current epoch is written with the lineage unknown |
| `Lineage.WrittenWithoutCompaction` | src/jev_router/app.py:1338-1430 | its twin with a compaction that never finishes: a change of the epoch before is written with both unknown |
| `ProtocolLimits.LateReplyOverwrites` | src/jev_router/app.py:2759-2799 | a concrete run at whose end session row and history part |
| `ProtocolLimits.HoleStays` | src/jev_router/effort.py:510-532 | no step of the protocol closes a hole, even where a reply that carried it still streams |
| `ProtocolLimits.HoleForever` | src/jev_router/effort.py:510-532 | over any run, whoever reconciles what, a hole stays a hole and its row the same but for its confirmed effort; over a quiet run the row is untouched |
| `ProtocolLimits.HoleStopsChangeIff` | src/jev_router/app.py:1598-1614 | the newest hole lets a change be recorded if and only if 50 or more plans follow it |
| `ProtocolLimits.HoleForgotten` | src/jev_router/app.py:1598-1614 | a concrete run of one epoch in which a change is recorded after a hole |
| `Execution.Request.Finish` | src/jev_router/app.py:1903-1917 | a request is settled and its claim given up once, however often that is asked |
| `Execution.Request.OnFinish` | src/jev_router/app.py:2759-2799 | the end of a reply is accounted for once, with the status each ending deserves |
| `Execution.Request.Stream` | src/jev_router/app.py:443-492 | the generator, its close and the backstop settle an accepted reply exactly once on every way a body can end |
| `Execution.Request.Forward` | src/jev_router/app.py:2670-2799 | every fate of the send releases the claim once and leaves one final status |
| `Execution.Request.Manage` | src/jev_router/app.py:1872-1934 | claims equal releases on every path, and one final status is written if and only if the request was claimed and booked |
| `Execution.PlanSettledWithRequest` | src/jev_router/app.py:2670-2799 | what a request leaves its plan at, fate by fate: confirmed only by a clean, readable completion of a completed request |
| `Execution.NeverHalfWay` | src/jev_router/app.py:1872-1934 | a request never leaves its plan accepted, and leaves it planned only when nothing was sent |
| `Execution.LeftIff` | src/jev_router/app.py:2759-2799 | which status a request is left with, each if and only if: completed for a drained body whose terminal event was read, stream_failed for a broken upstream, refused before acceptance, unknown for every other end, none where nothing was sent |
| `Execution.HeardIff` | src/jev_router/app.py:2670-2799 | which facts the carried plan is told, each if and only if, and that an acceptance comes first |
| `Execution.RequestIsRun` | src/jev_router/app.py:1872-1934 | every request, with a plan, without one or as a compaction, is fate by fate a run of the protocol's steps that holds exactly one claim from first to last and none after, touches no other row, execution or plan request, and tells its plan what the request tells it |
| `TurnGuard.TurnLocks.Enter` | src/jev_router/app.py:1317-1321 | entering opens the room if it is closed and counts the caller |
| `TurnGuard.TurnLocks.Leave` | src/jev_router/app.py:1322-1328 | leaving, by any way out, drops the lock if held and closes the room behind the last caller |
| `TurnGuard.StepConsistent` | src/jev_router/app.py:1285-1328 | every step keeps rooms, counts and guards consistent |
| `TurnGuard.OnePastTheLock` | src/jev_router/app.py:1306-1328 | two callers past the lock of one turn are one caller |
| `TurnGuard.StepFrugal` | src/jev_router/app.py:1297-1304 | every step keeps, for every turn: the classifier calls made are those lost with their caller, plus one if the turn has a plan or a call is out, and never both of these |
| `TurnGuard.WaitingRoomKept` | src/jev_router/app.py:1285-1328 | under every interleaving a key is held if and only if somebody is inside, its count is their number, they share one guard, and the classifier calls of a turn are at most one more than the callers dropped while theirs was out |
| `TurnGuard.OneDecides` | src/jev_router/app.py:1285-1328 | under every interleaving at most one caller decides a given turn |
| `TurnGuard.LoneCallerPlans` | src/jev_router/app.py:1285-1328 | where a turn has no plan and nobody is inside, the next caller, left alone, gets it planned with one classifier call and leaves all else as it was |
| `TurnLadder.SortAscends` | src/jev_router/config.py:824-826 | the sort is ascending in the configured order |
| `TurnLadder.FindFloor` | src/jev_router/app.py:1635-1648 | the loop over the rules finds the client minimum, raised by a protected or low-confidence decision |
| `TurnLadder.Rungs` | src/jev_router/app.py:1616-1664 | the filter loop keeps exactly the permitted rungs and returns their floor |
| `TurnLadder.LadderShape` | src/jev_router/app.py:1616-1664 | the returned ladder is every wanted, offered and permitted rung, without repeats, weakest first, with the returned floor at index 0 |
| `TurnLadder.FloorIsHighest` | src/jev_router/app.py:2939-2945 | the floor is the client minimum or the admitted effort and no lower than either that applies |
| `TurnLadder.LadderWithinLimits` | src/jev_router/app.py:1616-1664 | limit by limit, in the fields of the setting: a rung is kept if and only if it is wanted, offered, at or above the client minimum, at or above the admitted effort after a protected or low-confidence admission, at or below the cap and listed by the lane; ranks rise strictly, and the floor handed back is the weakest kept rung |
| `TurnLadder.ChangeRespectsEveryLimit` | src/jev_router/app.py:1330-1441 | every change planned on it is within every limit of the setting and strictly ascends or descends as its direction says |
| `Feedback.LadderIsCut` | src/jev_router/app.py:2518-2538 | the feedback ladder is exactly the model's efforts within cap and floor, each once, weakest first |
| `Feedback.SessionRow.StepEffort` | src/jev_router/app.py:2540-2603 | the guards in order, then a conditional write: all four efforts and the wire model move together or nothing does |
| `Feedback.RefusedIff` | src/jev_router/app.py:2540-2577 | why a verdict is refused: each reason if and only if it is the first guard that holds, at the ends of the ladder the one on the side asked for |
| `Feedback.StepsToNeighbour` | src/jev_router/app.py:2577-2603 | a step lands on a permitted rung strictly on the side asked for, with no rung between |
| `Feedback.VerdictsClimb` | src/jev_router/app.py:2540-2603 | n equal verdicts climb n rungs or stop at the end of the ladder |
| `Feedback.StepAndBack` | src/jev_router/app.py:2540-2603 | a step and the opposite step return to the same effort |
| `Feedback.InStepIff` | src/jev_router/app.py:2136-2146 | base, effective, expected and confirmed effort agree throughout a run of verdicts and compactions if and only if every compaction is accepted on the base effort it was sent with |
| `Feedback.InStepByVerdicts` | src/jev_router/app.py:2136-2146 | for a session that may be stepped they agree throughout if and only if, at every acceptance of a compaction, the rungs moved by verdicts since it was sent, clamped at both ends, come back to the rung it was sent on |
| `Feedback.FixedStaysInStep` | src/jev_router/app.py:2136-2146 | for every other session they agree throughout |
| `Feedback.StepDuringCompactionParts` | src/jev_router/app.py:2136-2146 | a step taken while a compaction is on its way parts the base from the other three |
| `Fallback.Forwarder.Forward` | src/jev_router/app.py:496-599 | the loop serves from the least entry that is last or not passed over for an open breaker, a transport error, 429 or 500 and up; it names each earlier entry once with its reason, closes every abandoned reply and reports to the breakers |
| `Fallback.TriedOnce` | src/jev_router/app.py:524-599 | an entry is tried if and only if its breaker let it or it is last, once, in plan order |
| `Fallback.AbandonedAreReceived` | src/jev_router/app.py:569-580 | the closed replies are exactly those received before the serving entry |
| `Fallback.ReportsFollowTries` | src/jev_router/app.py:550-582 | the breaker of each tried entry hears once, in the order of the tries: of a failure if and only if no reply came, or 429 or 500 and up |
| `Fallback.ReasonIff` | src/jev_router/app.py:528-572 | why an entry was passed over: the breaker if and only if it was open and not the last chance, else what came of the try |
| `Fallback.RestIsNeverLookedAt` | src/jev_router/app.py:524-599 | what lies behind the serving entry has no influence |
| `Prelude.Shuffle` | evals/import_public.py:716-716 | an in-place shuffle leaves some permutation |
| `Apportionment.Buckets` | evals/import_public.py:711-713 | the loop files every row under its stratum, in pool order |
| `Apportionment.SortedKeys` | evals/import_public.py:714 | strata in ascending order, each once |
| `Apportionment.SharesAddUp` | evals/import_public.py:721-724 | whole seats times the pool size plus the remainders are all the seats there are |
| `Apportionment.ShortIsCovered` | evals/import_public.py:727-730 | the missing seats never outnumber the strata with a positive remainder |
| `Apportionment.SortRanks` | evals/import_public.py:726-726 | remainders end up largest first, ties by name |
| `Apportionment.AwardsAreFair` | evals/import_public.py:726-733 | giving the first strata of the queue one seat each yields an apportionment |
| `Apportionment.Quotas` | evals/import_public.py:718-733 | quotas sum to exactly the limit, each is its exact share rounded down or up, none exceeds its stratum, a larger stratum never gets fewer, and no share is rounded up while a larger remainder is rounded down |
| `Apportionment.Pick` | evals/import_public.py:735-737 | picking the quotas alone already yields exactly `limit` rows, so the refill is never needed |
| `Apportionment.OthersAreUnpicked` | evals/import_public.py:740-742 | the rows a refill may take are those of the pool no picked row is, each as often as it stands there |
| `Apportionment.Refill` | evals/import_public.py:739-744 | a short pick is filled with unpicked rows of the pool, as far as they reach and up to the limit; a full one is returned as it is |
| `Apportionment.ProportionalSample` | evals/import_public.py:707-744 | the whole method: the pool itself when it fits, else exactly `limit` rows, no row more often than in the pool, apportioned as above stratum by stratum |
| `Luhn.LuhnOk` | evals/import_public.py:268-278 | the loop over the reversed string decides the checksum |
| `Luhn.SumUpdate` | evals/import_public.py:268-278 | replacing one character moves the sum by the difference of two weights |
| `Luhn.OneWrongDigitFails` | evals/import_public.py:268-278 | changing exactly one digit of a passing string makes it fail |
| `Luhn.ExactlyOneDigitPasses` | evals/import_public.py:268-278 | at every place of every digit string exactly one digit makes it pass |
| `Luhn.NeighbourSwapPassesIff` | evals/import_public.py:268-278 | swapping neighbours of a passing string passes if and only if they are equal or are 0 and 9 |
| `Luhn.WrongDigitBeyondPassesIff` | evals/import_public.py:268-288 | in any script of ten consecutive codes from 53 up, one wrong digit of a passing string passes if and only if it stands at an odd place from the right and is off by 5 |
| `Luhn.SwapBeyondPassesIff` | evals/import_public.py:268-288 | there a swap of neighbours passes if and only if they are equal |
| `Luhn.OddPlaceHasDouble` | evals/import_public.py:268-288 | there every digit at an odd place of a passing string has another that passes in its stead |
| `Luhn.OnlyAsciiDigitsCount` | evals/import_public.py:106-106 | an example: thirteen zeros of another script fail where thirteen ASCII zeros pass |
| `Wilson.ClampsAreNoOps` | evals/metrics.py:68-81 | for 0 <= k <= n, n > 0 the unclamped ends already satisfy 0 <= lo <= k/n <= hi <= 1 |
| `Wilson.IntervalIsScoreTest` | evals/metrics.py:68-81 | the interval is exactly the set of rates x with (x - p)^2 <= z^2 x(1-x)/n, and equality holds exactly at its two ends |
| `Wilson.MirrorImage` | evals/metrics.py:68-81 | counting failures instead gives (1 - hi, 1 - lo) |
| `Calibration.Calibrate` | evals/metrics.py:165-208 | the accumulating loop computes the weighted mean gap, the worst gap and one row per non-empty bin; n counts the answers both parts of which are known, and accuracy times n those of them that are right |
| `Calibration.CleanIsKnown` | evals/metrics.py:177-180 | the answers counted, and those counted right, are exactly the ones both parts of which are known |
| `Calibration.RowsByBin` | evals/metrics.py:183-199 | one table row per bin that holds an answer: their number, mean confidence and share of right ones in percent, and a gap that is positive where confidence claims more than it delivers |
| `Calibration.ErrorsAddUp` | evals/metrics.py:183-191 | one more bin adds to the expected error the distance between its confidences and its hits over all answers, and raises the worst error to its own gap where that is larger |
| `Calibration.DefaultBinsPartition` | evals/metrics.py:147 | the default bins hold each number from 0 up to 1.01 exactly once and no other |
| `Calibration.BinsPartition` | evals/metrics.py:183-188 | bins that hold each confidence once account for every answer, every confidence and every hit |
| `Calibration.ChainByBins` | evals/metrics.py:183-191 | bin by bin, distance of sums <= weighted gaps <= worst gap times count |
| `Calibration.CalibrationChain` | evals/metrics.py:165-208 | bin counts sum to n, and mean confidence minus accuracy, in size, <= ECE <= MCE <= 1 |
| `Calibration.DefaultBinsChain` | evals/metrics.py:147-208 | the same for the default bins and any confidences on the unit scale |
| `Calibration.NoErrorIff` | evals/metrics.py:189-191 | ECE is zero if and only if MCE is |
| `MembershipNull.OrdersAreRearrangements` | evals/metrics.py:594-598 | the enumerated orders are exactly the permutations of the label sets |
| `MembershipNull.OrdersAreDistinct` | evals/metrics.py:594-598 | no order is enumerated twice |
| `MembershipNull.EveryPairEquallyOften` | evals/metrics.py:593 | over all orders every pair of prediction and label set is scored (n-1)! times |
| `MembershipNull.MeanIsExact` | evals/metrics.py:580-593 | the reported mean is the average score share over all n! shuffles, each once |
| `MembershipNull.ScoreIsCount` | evals/metrics.py:592-599 | a score is the number of places whose prediction is one of the labels dealt there |
| `MembershipNull.UpperTail` | evals/metrics.py:606 | the upper tail counts the draws that score no less than the given order, ties included, and is whole if and only if no draw scores less |
| `MembershipNull.InsideIsCount` | evals/metrics.py:603-604 | what lies between two bounds is counted by place, the bounds included |
| `MembershipNull.PermutationNull` | evals/metrics.py:580-607 | the sampling method: refusal if and only if the inputs are unusable, every drawn order a permutation, each reported figure a function of the draws, and p_upper times the sample count plus one is one more than the draws that score no less than the given order, so that it is 1 if and only if none scores less |
| `MembershipNull.SortKeepsInside` | evals/metrics.py:600 | sorting moves no score across a bound |
| `MembershipNull.BoundsEnclose` | evals/metrics.py:603-604 | how many sampled scores the two bounds enclose at least, and exactly when all differ |
| `MembershipNull.ClimbingClimbs` | evals/metrics.py:594-600 | a run over two label classes whose samples all score differently |
| `MembershipNull.NinetyFivePercentIff` | evals/metrics.py:586-604 | over all inputs and all orders drawn, the two bounds enclose 95% of the sampled scores if and only if the sample count has one of these remainders |
| `TuneSearch.ImprovingShrinks` | evals/tune.py:569-579 | each improvement leaves strictly fewer ladders of the finite box that would improve further |
| `TuneSearch.PreferredIff` | evals/tune.py:544-549 | which of two scored ladders is preferred: within the limit by what is spent, beyond it with a thousand charged for each point, ties by less over-routing and then more correct tiers; one without figures only against a charged spending of a thousand million |
| `TuneSearch.InsaneDraws` | evals/tune.py:88-98 | which random choices are thrown away unscored |
| `TuneSearch.Tuner.Measure` | evals/tune.py:551-556 | the memo returns what scoring would, scores a sane ladder at most once and an insane one never |
| `TuneSearch.Tuner.Sample` | evals/tune.py:558-567 | the random phase keeps the best of the start and the sane draws |
| `TuneSearch.Tuner.Descend` | evals/tune.py:569-580 | coordinate descent ends, is no worse than where it began, and no sane change of one number to a grid value improves its result |
| `TuneSearch.Tuner.Search` | evals/tune.py:526-580 | the whole search: never worse than the start or any sane draw, sane if the start was, carried settings untouched, and polished |

## Left out

- Reason strings, `to_facts`, log lines, response ids, turn counters and usage totals: text and plumbing.
- HTTP, streaming bytes, headers and SQLite: replies, breakers and stream ends are parameters, and the store is its
  contents. A store write that raises is not modelled beyond failed bookkeeping before the send.
- `Protocol.Carried`: of the effort contract only the choice of the plan is modelled; the checks of history, anchors and
  base effort in protocols.py are not part of this model. An execution they refuse never begins.
- A turn boundary may also be refused for an unqualified profile, a fixed strategy or a short context budget. Such a
  request changes nothing and is a plan request that never begins.
- `Execution.Request.Manage`: the intermediate request marks (`in_flight`, `accepted`) are not modelled, only claims,
  releases, final statuses and what the plan is told.
- `TurnGuard.OneDecides`: any waiting caller may take a free lock; the order in which asyncio wakes waiters is not
  modelled, so the theorem covers every order.
- `ProtocolLimits.OneChangeAtATime`: asks that nothing be sent while a plan request is out. What holds without that is
  `OneChange.OneChangeIff` for the open changes, and `Lineage.KnownIff` for lineage and compaction state.
- `Protocol.BeginPlan`: reads the session row when classification starts. The source reads it before the wait for the
  turn's lock, so a caller that waited behind one that was dropped decides on the compaction state, lineage and epoch of
  before its wait. That wait is not part of the protocol's steps; the habits exclude it.
- `Protocol.LedgerRefinement`: asks that nobody reconcile a plan in flight. What holds without that is
  `Protocol.LedgerRefinementIff`. Both assume one execution at a time, which is the configured default, and plans that
  name an effort when they change one.
- Nothing in the configuration's checks forbids a ladder, an effort order or a model's effort list that repeats an
  effort; the theorems about positions assume distinct rungs, and what a repeated rung does is not modelled.
- `Feedback.InStepIff`: verdicts are read and written without a race; a lost race writes nothing and is covered by the
  method's own contract.
- `session_adaptation`, `_how_to_settle`, `_shadow_counterfactual` and the report of a session: lookups and wording.
- `AdaptiveEffortCfg` and the other configuration checks are facts a theorem assumes, named `Valid` where they are used.
- `Wilson.Interval`: exact reals instead of floating point, with the square root given as a nonnegative number of that
  square; z is a quantile and so not negative.
- `Calibration.Calibrate`: exact reals instead of floating point, and no text label on a row.
- `Apportionment.ProportionalSample`: shares are exact fractions, not floats; a negative `limit` is not modelled; strata
  are numbers, since only their equality and order are used.
- `MembershipNull.PermutationNull`: exact reals; the generator is any source of permutations, and nothing is said about
  how likely each is.
- `TuneSearch.Tuner.Search`: the scorer is any function of a ladder, and the random choices are any draws from the grid.
- Bootstrap intervals, `_percentile`, rates, reports and the other figures of evals/metrics.py: sampling, or easy members.
- The generator of fixtures, dataset filters other than the checksum, and the rendering of the tuned policy.
