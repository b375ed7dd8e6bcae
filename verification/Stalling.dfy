/** When a recurring schedule is stuck where it is armed, and when it can go on. */
module Stalling {
  import opened Results
  import opened Text
  import opened Schedule
  import opened Rules
  import opened Payloads
  import opened Targets
  import opened Keys
  import opened Tables
  import opened Transactions
  import opened Invariants
  import opened Preservation
  import opened Runs
  import opened Frames
  import opened History
  import opened Intakes
  import opened CommandLaws
  import opened Effects
  import opened RuleSteps

  /** An execution of the rule for this slot is still to finish. */
  ghost predicate Unfinished(db: Db, r: string, at: Time) {
    exists e :: e in ExecutionsOf(db.executions, r) && IsUnfinished(db, e, at)
  }

  ghost predicate IsUnfinished(db: Db, e: string, at: Time) {
    IsTimerExecution(db, e) && SlotOf(db, e) == at && !db.executions[e].Terminal()
  }

  /** The jobs of this slot do nothing: its timer was received, or they carry a key that intake refuses. */
  ghost predicate Spent(db: Db, r: string, at: Time) {
    || (r in db.rules && Received(db.triggers, db.rules[r].organizationId, TimerSource, ScheduleKey(r, at)))
    || ((r, at) in db.dispatches && db.dispatches[(r, at)].idempotencyKey != ScheduleKey(r, at))
  }

  /** Armed at a slot that has no execution to finish and can get none. */
  ghost predicate Stuck(db: Db, r: string) {
    && r in db.rules && db.rules[r].Armable() && db.rules[r].nextFireAt.Some?
    && Spent(db, r, db.rules[r].nextFireAt.value) && !Unfinished(db, r, db.rules[r].nextFireAt.value)
  }

  lemma SpentStays(a: Db, b: Db, r: string, at: Time)
    requires Spent(a, r, at) && r in a.rules && Later(a, b)
    ensures Spent(b, r, at)
  {
    hide ScheduleKey, Received, ExecutionsLater, AttemptsLater, ReceiptsLater;
    assert RuleLater(a.rules[r], b.rules[r]);
    if Received(a.triggers, a.rules[r].organizationId, TimerSource, ScheduleKey(r, at)) {
      ReceivedStays(a.triggers, b.triggers, a.rules[r].organizationId, TimerSource, ScheduleKey(r, at));
    } else {
      assert DispatchLater(a.dispatches[(r, at)], b.dispatches[(r, at)]);
    }
  }

  /** A step that keeps the rule and makes no execution of the armed slot unfinished keeps it stuck. */
  lemma StuckStays(a: Db, b: Db, r: string)
    requires Stuck(a, r) && Later(a, b) && r in b.rules && b.rules[r] == a.rules[r]
    requires !Unfinished(b, r, a.rules[r].nextFireAt.value)
    ensures Stuck(b, r)
  {
    hide Later, Spent, Unfinished;
    SpentStays(a, b, r, a.rules[r].nextFireAt.value);
  }

  lemma UndisturbedStuck(a: Db, b: Db, r: string)
    requires Stuck(a, r) && Undisturbed(a, b, r) && Later(a, b)
    requires Inv(a)
    ensures Stuck(b, r) && b.rules[r] == a.rules[r]
  {
    hide Inv, Later, Spent;
    var at := a.rules[r].nextFireAt.value;
    ExecutionsReferTriggers(a);
    forall e | e in ExecutionsOf(b.executions, r) ensures !IsUnfinished(b, e, at) {
      assert e in ExecutionsOf(a.executions, r) && !IsUnfinished(a, e, at);
    }
    StuckStays(a, b, r);
  }

  /** A timer of a stuck rule is refused, a duplicate, or recorded and ignored. */
  lemma TimerFindsItStuck(db: Db, op: Op, r: string)
    requires op.ReceiveTimerOp? && Enabled(db, op) && op.ruleId == r && FromJobs(db, op, r) && Stuck(db, r)
    ensures || Apply(db, op) == db
            || Apply(db, op) == db.(triggers := db.triggers[op.triggerId := TimerReceipt(op.organizationId, r, op.dedupeKey, op.scheduledFor)])
  {
    hide ScheduleKey, Received, Unfinished, InsertExecution;
  }

  lemma RecordedUnfinished(db: Db, after: Db, triggerId: string, r: string, at: Time)
    requires !Unfinished(db, r, at) && after.executions == db.executions && Kept(db.triggers, after.triggers)
    requires forall t :: t in after.triggers ==> t in db.triggers || t == triggerId
    requires forall e :: e in db.executions ==> db.executions[e].triggerId != triggerId
    ensures !Unfinished(after, r, at)
  {
    forall e | e in ExecutionsOf(after.executions, r) ensures !IsUnfinished(after, e, at) {
      assert !IsUnfinished(db, e, at);
    }
  }

  lemma EndedUnfinished(db: Db, claim: Claim, status: ExecutionStatus, attemptStatus: AttemptStatus,
                        failure: Option<string>, r: string, at: Time)
    requires !Unfinished(db, r, at) && claim.executionId in db.executions && (status.Succeeded? || status.Failed?)
    ensures !Unfinished(EndAttempt(db, claim, status, attemptStatus, failure), r, at)
  {
    var ended := EndAttempt(db, claim, status, attemptStatus, failure);
    forall e | e in ExecutionsOf(ended.executions, r) ensures !IsUnfinished(ended, e, at) {
      assert e in ExecutionsOf(db.executions, r) && !IsUnfinished(db, e, at);
    }
  }

  lemma CompletionFindsItStuck(db: Db, op: Op, r: string)
    requires op.CompleteOp? && Enabled(db, op) && op.claim.ruleId == r && Stuck(db, r)
    requires Inv(db)
    ensures Apply(db, op).rules == db.rules && !Unfinished(Apply(db, op), r, db.rules[r].nextFireAt.value)
  {
    hide Inv, ScheduleKey, Received, AdvanceSchedule, EndAttempt, Spent;
    var claim := op.claim;
    if HoldsLease(db.executions, claim, op.now) {
      var status := if op.succeeded then Succeeded else Failed;
      var ended := EndAttempt(db, claim, status, LastAttemptStatus(status), op.failure);
      EndFrame(db, claim, status, LastAttemptStatus(status), op.failure);
      SourceTellsPayload(db, claim.triggerId);
      if claim.payload.TimerPayload? {
        assert claim.executionId in ExecutionsOf(db.executions, r) && !IsUnfinished(db, claim.executionId, db.rules[r].nextFireAt.value);
        OtherSlotStays(ended, r, claim.payload, op.now);
      }
      EndedUnfinished(db, claim, status, LastAttemptStatus(status), op.failure, r, db.rules[r].nextFireAt.value);
    }
  }

  lemma StepFindsItStuck(db: Db, op: Op, r: string)
    requires Enabled(db, op) && Stuck(db, r) && FromJobs(db, op, r)
    requires r in Apply(db, op).rules && Apply(db, op).rules[r].revision == db.rules[r].revision
    requires Inv(db)
    ensures Stuck(Apply(db, op), r) && Apply(db, op).rules[r].nextFireAt == db.rules[r].nextFireAt
  {
    hide Inv, Enabled, Apply, Undisturbed, Unfinished, Spent, FromJobs, Later;
    var at := db.rules[r].nextFireAt.value;
    StepIsLater(db, op);
    if op.ReceiveTimerOp? && op.ruleId == r {
      TimerFindsItStuck(db, op, r);
      RecordedTimer(db, op);
      RecordedUnfinished(db, Apply(db, op), op.triggerId, r, at);
      StuckStays(db, Apply(db, op), r);
    } else if op.CompleteOp? && op.claim.ruleId == r {
      CompletionFindsItStuck(db, op, r);
      StuckStays(db, Apply(db, op), r);
    } else {
      StepElsewhere(db, op, r);
      UndisturbedStuck(db, Apply(db, op), r);
    }
  }

  lemma RecordedTimer(db: Db, op: Op)
    requires op.ReceiveTimerOp? && Enabled(db, op)
    requires Inv(db)
    ensures op.triggerId !in db.triggers && forall e :: e in db.executions ==> db.executions[e].triggerId != op.triggerId
  {
    hide Inv;
    NewTriggerHasNoExecution(db, op.triggerId);
  }

  /** Whatever Jobs delivers and workers complete afterwards, a stuck schedule stays where it is until it is edited. */
  lemma {:induction false} StuckSchedulesStay(states: seq<Db>, ops: seq<Op>, i: nat, j: nat, r: string)
    requires Run(states, ops) && i <= j < |states| && Stuck(states[i], r)
    requires r in states[j].rules && states[j].rules[r].revision == states[i].rules[r].revision
    requires forall n :: i <= n < j ==> FromJobs(states[n], ops[n], r)
    requires Inv(states[0])
    ensures Stuck(states[j], r) && states[j].rules[r].nextFireAt == states[i].rules[r].nextFireAt
    decreases j - i
  {
    hide Inv, Enabled, Apply, Stuck, FromJobs;
    if i < j {
      InvariantOverRuns(states, ops, j - 1);
      StuckRule(states[i], r);
      UneditedBefore(states, ops, i, j - 1, r);
      StuckSchedulesStay(states, ops, i, j - 1, r);
      StepFindsItStuck(states[j - 1], ops[j - 1], r);
    }
  }

  lemma StuckRule(db: Db, r: string)
    requires Stuck(db, r)
    ensures r in db.rules && db.rules[r].nextFireAt.Some?
  {
  }

  // ----- schedules that can go on -----

  /** The slot after the armed one, if there is one. */
  function NextSlot(rule: Rule): Option<Time> {
    if rule.nextFireAt.Some? && rule.trigger.intervalSeconds.Some?
    then CheckedAddSeconds(rule.nextFireAt.value, rule.trigger.intervalSeconds.value) else None
  }

  lemma ArmedAdvances(db: Db, r: string, payload: Payload, now: Time)
    requires r in db.rules && db.rules[r].Armable() && NextSlot(db.rules[r]).Some?
    requires payload.TimerPayload? && db.rules[r].nextFireAt == Some(payload.scheduledFor)
    ensures AdvanceSchedule(db, r, payload, now).Ok?
    ensures AdvanceSchedule(db, r, payload, now).value.rules
            == db.rules[r := db.rules[r].(nextFireAt := Some(Stored(NextSlot(db.rules[r]).value)), updatedAt := now)]
    ensures AdvanceSchedule(db, r, payload, now).value.dispatches
            == ReplacePendingSchedule(db.dispatches, db.rules[r].organizationId, r, NextSlot(db.rules[r]))
  {
    hide PayloadJson, Get, ReplacePendingSchedule;
    TimerPayloadTime(payload);
  }

  /** Finishing the unfinished execution of the armed slot arms the next one. */
  lemma UnfinishedAdvances(db: Db, r: string, e: string, worker: string) returns (states: seq<Db>, ops: seq<Op>)
    requires r in db.rules && db.rules[r].Armable() && NextSlot(db.rules[r]).Some?
    requires e in ExecutionsOf(db.executions, r) && db.rules[r].nextFireAt.Some? && IsUnfinished(db, e, db.rules[r].nextFireAt.value)
    requires db.executions[e].attempts < I32_MAX
    requires Inv(db)
    ensures Run(states, ops) && states[0] == db && |ops| == 2 && ops[0].ClaimOp? && ops[1].CompleteOp?
    ensures r in states[2].rules
            && states[2].rules[r] == db.rules[r].(nextFireAt := Some(Stored(NextSlot(db.rules[r]).value)), updatedAt := states[2].rules[r].updatedAt)
    ensures states[1].rules == db.rules
    ensures states[2].dispatches == ReplacePendingSchedule(db.dispatches, db.rules[r].organizationId, r, NextSlot(db.rules[r]))
    ensures OnlyEnded(db.executions, states[2].executions, e)
  {
    hide Inv, AdvanceSchedule, NextSlot, ClaimAll, Stored, ReplacePendingSchedule;
    var claimOp, claim := UnfinishedIsClaimable(db, e, worker);
    var claimed := Apply(db, claimOp);
    var endOp := CompleteOp(claim, true, None, claimOp.now);
    states, ops := [db, claimed, Apply(claimed, endOp)], [claimOp, endOp];
    SourceTellsPayload(db, claim.triggerId);
    var ended := EndAttempt(claimed, claim, Succeeded, AttemptSucceeded, None);
    EndFrame(claimed, claim, Succeeded, AttemptSucceeded, None);
    ArmedAdvances(ended, r, claim.payload, claimOp.now);
    AdvanceFrame(ended, r, claim.payload, claimOp.now);
  }

  /** One execution became terminal, and no other changed. */
  ghost predicate OnlyEnded(a: Executions, b: Executions, e: string) {
    && b.Keys == a.Keys && e in a && b[e].Terminal() && forall f :: f in a && f != e ==> b[f] == a[f]
  }

  /** The job of an armed slot whose timer was not received starts its execution. */
  lemma DeliveryIsAccepted(db: Db, r: string, triggerId: string, executionId: string) returns (op: Op)
    requires r in db.rules && db.rules[r].Armable() && db.rules[r].nextFireAt.Some? && !Spent(db, r, db.rules[r].nextFireAt.value)
    requires triggerId !in db.triggers && executionId !in db.executions
    requires Inv(db)
    ensures op.ReceiveTimerOp? && op.scheduledFor == db.rules[r].nextFireAt.value
    ensures Enabled(db, op) && FromJobs(db, op, r) && Apply(db, op).rules == db.rules
    ensures executionId in ExecutionsOf(Apply(db, op).executions, r) && IsUnfinished(Apply(db, op), executionId, db.rules[r].nextFireAt.value)
    ensures Apply(db, op).executions[executionId].attempts == 0
    ensures forall f :: f in Apply(db, op).executions && f != executionId ==> f in db.executions && Apply(db, op).executions[f] == db.executions[f]
  {
    hide Inv, ScheduleKey, Received, NewReceipts;
    var at := db.rules[r].nextFireAt.value;
    InvariantArmable(db, r);
    DispatchOrganization(db, (r, at));
    op := ReceiveTimerOp(db.rules[r].organizationId, r, ScheduleKey(r, at), at, triggerId, executionId);
    AcceptedTimer(db, op, r);
  }

  /** Whether a run that does not edit the rule arms it anew. */
  ghost predicate MovesOn(db: Db, r: string, states: seq<Db>, ops: seq<Op>)
    requires r in db.rules
  {
    && Run(states, ops) && states[0] == db
    && (forall n :: 0 <= n < |ops| ==> FromJobs(states[n], ops[n], r))
    && r in states[|ops|].rules && states[|ops|].rules[r].revision == db.rules[r].revision
    && states[|ops|].rules[r].nextFireAt != db.rules[r].nextFireAt
  }

  /** Attempt counters leave room for another attempt. */
  ghost predicate CountersHaveRoom(db: Db) {
    forall e :: e in db.executions && !db.executions[e].Terminal() ==> db.executions[e].attempts < I32_MAX
  }

  /** An armed schedule can go on without an edit exactly if it is not stuck and has a next slot. */
  lemma GoesOnIffNotStuck(db: Db, r: string, worker: string)
    requires r in db.rules && db.rules[r].Armable() && CountersHaveRoom(db)
    requires Inv(db)
    ensures (exists states, ops :: MovesOn(db, r, states, ops)) <==> !Stuck(db, r) && NextSlot(db.rules[r]).Some?
  {
    hide Inv, Enabled, Apply, MovesOn, NextSlot, Stuck, CountersHaveRoom;
    if Stuck(db, r) {
      forall states, ops ensures !MovesOn(db, r, states, ops) {
        StuckDoesNotMove(db, r, states, ops);
      }
    } else if NextSlot(db.rules[r]).None? {
      forall states, ops ensures !MovesOn(db, r, states, ops) {
        LastDoesNotMove(db, r, states, ops);
      }
    } else {
      var states, ops := UnstuckMoves(db, r, worker);
    }
  }

  lemma StuckDoesNotMove(db: Db, r: string, states: seq<Db>, ops: seq<Op>)
    requires Stuck(db, r)
    requires Inv(db)
    ensures r in db.rules && !MovesOn(db, r, states, ops)
  {
    hide Inv, Stuck, Enabled, Apply, FromJobs;
    StuckRule(db, r);
    if MovesOn(db, r, states, ops) {
      StuckSchedulesStay(states, ops, 0, |ops|, r);
    }
  }

  lemma LastDoesNotMove(db: Db, r: string, states: seq<Db>, ops: seq<Op>)
    requires r in db.rules && db.rules[r].Armable() && NextSlot(db.rules[r]).None?
    requires Inv(db)
    ensures !MovesOn(db, r, states, ops)
  {
    hide Inv, Enabled, Apply, FromJobs, NextSlot;
    if MovesOn(db, r, states, ops) {
      LastStays(states, ops, |ops|, r);
    }
  }

  lemma StepWithoutNext(db: Db, op: Op, r: string)
    requires Enabled(db, op) && r in db.rules && db.rules[r].Armable() && NextSlot(db.rules[r]).None?
    requires r in Apply(db, op).rules && Apply(db, op).rules[r].revision == db.rules[r].revision
    requires Inv(db)
    ensures Apply(db, op).rules[r] == db.rules[r]
  {
    hide Inv, Enabled, Apply, Undisturbed, NextSlot;
    StepWrites(db, op);
    if op.CompleteOp? && op.claim.ruleId == r {
      CompletionWithoutNext(db, op, r);
    } else if !op.ReceiveTimerOp? {
      StepElsewhere(db, op, r);
      SameRule(db, Apply(db, op), r);
    }
  }

  lemma SameRule(a: Db, b: Db, r: string)
    requires Undisturbed(a, b, r)
    ensures b.rules[r] == a.rules[r]
  {
  }

  lemma CompletionWithoutNext(db: Db, op: Op, r: string)
    requires op.CompleteOp? && Enabled(db, op) && op.claim.ruleId == r && r in db.rules && db.rules[r].Armable() && NextSlot(db.rules[r]).None?
    requires Inv(db)
    ensures Apply(db, op).rules == db.rules
  {
    hide Inv, EndAttempt, PayloadJson, Get, HoldsLease, ReplacePendingSchedule;
    InvariantArmable(db, r);
    var status := if op.succeeded then Succeeded else Failed;
    EndFrame(db, op.claim, status, LastAttemptStatus(status), op.failure);
  }

  lemma {:induction false} LastStays(states: seq<Db>, ops: seq<Op>, j: nat, r: string)
    requires Run(states, ops) && j < |states|
    requires r in states[0].rules && states[0].rules[r].Armable() && NextSlot(states[0].rules[r]).None?
    requires r in states[j].rules && states[j].rules[r].revision == states[0].rules[r].revision
    requires Inv(states[0])
    ensures states[j].rules[r] == states[0].rules[r]
  {
    hide Inv, Enabled, Apply, NextSlot;
    if j > 0 {
      UneditedBefore(states, ops, 0, j - 1, r);
      LastStays(states, ops, j - 1, r);
      InvariantOverRuns(states, ops, j - 1);
      StepWithoutNext(states[j - 1], ops[j - 1], r);
    }
  }

  /** The execution of the armed slot, after delivering its job if that is still to do. */
  lemma ArmedExecution(db: Db, r: string) returns (states: seq<Db>, ops: seq<Op>, e: string)
    requires r in db.rules && db.rules[r].Armable() && db.rules[r].nextFireAt.Some? && !Stuck(db, r) && CountersHaveRoom(db)
    requires Inv(db)
    ensures Run(states, ops) && states[0] == db && |ops| <= 1 && Inv(states[|ops|]) && states[|ops|].rules == db.rules
    ensures forall n :: 0 <= n < |ops| ==> ops[n].ReceiveTimerOp? && ops[n].scheduledFor == db.rules[r].nextFireAt.value && FromJobs(states[n], ops[n], r)
    ensures e in ExecutionsOf(states[|ops|].executions, r) && IsUnfinished(states[|ops|], e, db.rules[r].nextFireAt.value)
    ensures states[|ops|].executions[e].attempts < I32_MAX
    ensures CountersHaveRoom(states[|ops|]) && states[|ops|].dispatches == db.dispatches
  {
    hide Inv, ScheduleKey, Spent, Enabled, Apply;
    var at := db.rules[r].nextFireAt.value;
    if Unfinished(db, r, at) {
      e :| e in ExecutionsOf(db.executions, r) && IsUnfinished(db, e, at);
      states, ops := [db], [];
    } else {
      e := FreshId(db.executions.Keys);
      var triggerId := FreshId(db.triggers.Keys);
      var op := DeliveryIsAccepted(db, r, triggerId, e);
      StepKeepsInvariant(db, op);
      StepWrites(db, op);
      states, ops := [db, Apply(db, op)], [op];
    }
  }

  /** An armed rule that is not stuck is armed at its next slot by at most three steps. */
  lemma UnstuckAdvances(db: Db, r: string, worker: string) returns (states: seq<Db>, ops: seq<Op>)
    requires r in db.rules && db.rules[r].Armable() && NextSlot(db.rules[r]).Some? && !Stuck(db, r) && CountersHaveRoom(db)
    requires Inv(db)
    ensures Run(states, ops) && states[0] == db
    ensures forall n :: 0 <= n < |ops| ==> FromJobs(states[n], ops[n], r) && !ops[n].ManageOp?
    ensures forall n :: 0 <= n < |ops| && ops[n].ReceiveTimerOp? ==> ops[n].scheduledFor == db.rules[r].nextFireAt.value
    ensures r in states[|ops|].rules
    ensures var after := states[|ops|].rules[r];
            after == db.rules[r].(nextFireAt := Some(Stored(NextSlot(db.rules[r]).value)), updatedAt := after.updatedAt)
    ensures forall n :: 0 <= n < |ops| ==> states[n].rules == db.rules
    ensures states[|ops|].dispatches == ReplacePendingSchedule(db.dispatches, db.rules[r].organizationId, r, NextSlot(db.rules[r]))
    ensures CountersHaveRoom(states[|ops|])
  {
    hide Inv, ScheduleKey, Spent, Stuck, Enabled, Apply, NextSlot, Stored, IsUnfinished, ReplacePendingSchedule;
    InvariantArmable(db, r);
    var s, o, e := ArmedExecution(db, r);
    var s', o' := UnfinishedAdvances(s[|o|], r, e, worker);
    states, ops := s + s'[1..], o + o';
    RunsJoin(s, o, s', o');
    forall n | 0 <= n < |ops| ensures FromJobs(states[n], ops[n], r) && !ops[n].ManageOp? {
      if n < |o| {
        assert states[n] == s[n] && ops[n] == o[n];
      } else {
        assert ops[n] == o'[n - |o|];
      }
    }
    forall n | 0 <= n < |ops| ensures states[n].rules == db.rules {
      assert states[n] == if n <= |o| then s[n] else s'[n - |o|];
    }
  }

  lemma RunsJoin(s: seq<Db>, o: seq<Op>, s': seq<Db>, o': seq<Op>)
    requires Run(s, o) && Run(s', o') && s[|o|] == s'[0]
    ensures Run(s + s'[1..], o + o') && (s + s'[1..])[|o + o'|] == s'[|o'|]
  {
    hide Enabled, Apply;
  }

  lemma UnstuckMoves(db: Db, r: string, worker: string) returns (states: seq<Db>, ops: seq<Op>)
    requires r in db.rules && db.rules[r].Armable() && NextSlot(db.rules[r]).Some? && !Stuck(db, r) && CountersHaveRoom(db)
    requires Inv(db)
    ensures MovesOn(db, r, states, ops)
  {
    hide Inv, Enabled, Apply, NextSlot, Stored, Stuck, CountersHaveRoom, FromJobs;
    NextSlotDiffers(db, r);
    states, ops := UnstuckAdvances(db, r, worker);
  }

  lemma NextSlotDiffers(db: Db, r: string)
    requires r in db.rules && db.rules[r].Armable() && NextSlot(db.rules[r]).Some?
    requires Inv(db)
    ensures Stored(NextSlot(db.rules[r]).value) != db.rules[r].nextFireAt.value
  {
    hide Inv;
    InvariantArmable(db, r);
  }
}
