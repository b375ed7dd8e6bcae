/** Which armed schedules can end up stuck although nobody edits them: exactly those that are stuck already, or that
    have something left at a slot they would come to. */
module Collisions {
  import opened Results
  import opened Text
  import opened Schedule
  import opened Rules
  import opened Payloads
  import opened Targets
  import opened Keys
  import opened Tables
  import opened Transactions
  import opened Invariants
  import opened Preservation
  import opened Runs
  import opened Frames
  import opened History
  import opened Intakes
  import opened CommandLaws
  import opened Effects
  import opened Dispatching
  import opened RuleSteps
  import opened Stalling
  import opened Progression
  import opened Recurrence

  /** A run that does not edit the rule, delivers to it only payloads handed to Jobs, and ends with it stuck. */
  ghost predicate Strands(db: Db, r: string, states: seq<Db>, ops: seq<Op>)
    requires r in db.rules
  {
    && Run(states, ops) && states[0] == db
    && (forall n :: 0 <= n < |ops| ==> FromJobs(states[n], ops[n], r))
    && r in states[|ops|].rules && states[|ops|].rules[r].revision == db.rules[r].revision
    && Stuck(states[|ops|], r)
  }

  // ----- what steps leave alone -----

  /** An execution becomes due only for the armed slot. */
  lemma StepStartsArmed(db: Db, op: Op, r: string, t: Time)
    requires Enabled(db, op) && r in db.rules && Unfinished(Apply(db, op), r, t)
    requires Inv(db)
    ensures Unfinished(db, r, t) || db.rules[r].nextFireAt == Some(t)
  {
    hide Inv, Apply, Enabled, RulesLater, AttemptsLater, ReceiptsLater, DispatchesLater, EventMatches;
    var e :| e in ExecutionsOf(Apply(db, op).executions, r) && IsUnfinished(Apply(db, op), e, t);
    StepIsLater(db, op);
    if e in db.executions {
      ExecutionsReferTriggers(db);
      assert ExecutionLater(db.executions[e], Apply(db, op).executions[e]);
      assert IsUnfinished(db, e, t);
    } else {
      StepAccepts(db, op, e);
    }
  }

  /** A dispatch is made only for the slot its rule is then armed at. */
  lemma StepAddsArmed(db: Db, op: Op, r: string, t: Time)
    requires Enabled(db, op) && (r, t) in Apply(db, op).dispatches && r in Apply(db, op).rules
    requires Inv(db)
    ensures (r, t) in db.dispatches || Apply(db, op).rules[r].nextFireAt == Some(t)
  {
    hide Inv, Apply, Enabled;
    StepMoves(db, op, (r, t));
  }

  /** A run that stays at one slot, delivers only its timer, and then arms another leaves all other slots alone. */
  ghost predicate Passes(states: seq<Db>, ops: seq<Op>, r: string, at: Time, next: Time) {
    && Run(states, ops) && Inv(states[0])
    && (forall n :: 0 <= n < |ops| ==> r in states[n].rules && states[n].rules[r].nextFireAt == Some(at))
    && (forall n :: 0 <= n < |ops| && ops[n].ReceiveTimerOp? ==> ops[n].scheduledFor == at)
    && r in states[|ops|].rules && states[|ops|].rules[r].nextFireAt == Some(next)
  }

  lemma PassingStep(states: seq<Db>, ops: seq<Op>, r: string, at: Time, next: Time, n: nat)
    requires Passes(states, ops, r, at, next) && n < |ops|
    ensures Enabled(states[n], ops[n]) && states[n + 1] == Apply(states[n], ops[n]) && r in states[n].rules && r in states[n + 1].rules
    ensures states[n].rules[r].nextFireAt == Some(at)
    ensures states[n + 1].rules[r].nextFireAt == Some(at) || states[n + 1].rules[r].nextFireAt == Some(next)
    ensures ops[n].ReceiveTimerOp? ==> ops[n].scheduledFor == at
    ensures Inv(states[n])
  {
    hide Inv, Enabled, Apply;
    InvariantOverRuns(states, ops, n);
    if n + 1 < |ops| {
      assert states[n + 1].rules[r].nextFireAt == Some(at);
    }
  }

  lemma {:induction false} PassingLeavesOthers(states: seq<Db>, ops: seq<Op>, r: string, at: Time, next: Time, j: nat,
                                               organizationId: string, t: Time)
    requires Passes(states, ops, r, at, next) && j < |states| && t != at
    ensures Unfinished(states[j], r, t) ==> Unfinished(states[0], r, t)
    ensures Received(states[j].triggers, organizationId, TimerSource, ScheduleKey(r, t)) ==>
              Received(states[0].triggers, organizationId, TimerSource, ScheduleKey(r, t))
    ensures t != next && (r, t) in states[j].dispatches ==> (r, t) in states[0].dispatches
  {
    hide Inv, Enabled, Apply, Unfinished, Received, ScheduleKey, Passes;
    PassingRun(states, ops, r, at, next);
    if j > 0 {
      PassingLeavesOthers(states, ops, r, at, next, j - 1, organizationId, t);
      PassingStep(states, ops, r, at, next, j - 1);
      if Unfinished(states[j], r, t) {
        StepStartsArmed(states[j - 1], ops[j - 1], r, t);
      }
      if Received(states[j].triggers, organizationId, TimerSource, ScheduleKey(r, t)) {
        StepReceives(states[j - 1], ops[j - 1], organizationId, r, t);
      }
      if (r, t) in states[j].dispatches {
        StepAddsArmed(states[j - 1], ops[j - 1], r, t);
      }
    }
  }

  lemma PassingRun(states: seq<Db>, ops: seq<Op>, r: string, at: Time, next: Time)
    requires Passes(states, ops, r, at, next)
    ensures Run(states, ops) && |states| == |ops| + 1
  {
    hide Inv, Enabled, Apply;
  }

  // ----- slot arithmetic -----

  lemma SlotAfter(t0: Time, interval: int, j: int)
    ensures Slot(Slot(t0, interval, 1), interval, j) == Slot(t0, interval, j + 1)
  {
    assert (j + 1) * interval == j * interval + interval;
  }

  lemma RangeAfter(t0: Time, interval: int, j: int)
    requires 0 <= j && InRange(t0, interval, j + 1)
    ensures InRange(Slot(t0, interval, 1), interval, j)
  {
    hide Slot, Representable;
    forall i | 1 <= i <= j ensures Representable(Slot(Slot(t0, interval, 1), interval, i)) {
      SlotAfter(t0, interval, i);
      assert Representable(Slot(t0, interval, i + 1));
    }
  }

  lemma NextIsFirstSlot(db: Db, r: string)
    requires r in db.rules && db.rules[r].Armable()
    requires Inv(db)
    ensures db.rules[r].nextFireAt.Some? && IntervalOf(db.rules[r]) > 0
    ensures var next := Slot(db.rules[r].nextFireAt.value, IntervalOf(db.rules[r]), 1);
            && (Representable(next) ==> NextSlot(db.rules[r]) == Some(next) && Stored(next) == next)
  {
    hide Inv;
    ArmedIsAligned(db, r);
    InvariantArmable(db, r);
    StoredSlot(db.rules[r].nextFireAt.value, IntervalOf(db.rules[r]), 1);
  }

  // ----- running into a used slot -----

  /** What is needed to run into slot `m`: nothing in between, and a slot `m` whose jobs do nothing. */
  ghost predicate Ahead(db: Db, r: string, at: Time, interval: int, m: nat) {
    && r in db.rules && db.rules[r].Armable() && db.rules[r].nextFireAt == Some(at) && IntervalOf(db.rules[r]) == interval
    && InRange(at, interval, m) && Spent(db, r, Slot(at, interval, m)) && !Unfinished(db, r, Slot(at, interval, m))
    && (forall j :: 1 <= j < m ==> !Used(db, r, Slot(at, interval, j)))
    && CountersHaveRoom(db)
  }

  /** One slot on, with slot `m` one slot nearer. */
  lemma Approach(db: Db, r: string, at: Time, interval: int, m: nat, worker: string) returns (states: seq<Db>, ops: seq<Op>)
    requires Ahead(db, r, at, interval, m + 1) && !Stuck(db, r)
    requires Inv(db)
    ensures Run(states, ops) && states[0] == db && forall n :: 0 <= n < |ops| ==> FromJobs(states[n], ops[n], r)
    ensures r in states[|ops|].rules && states[|ops|].rules[r].revision == db.rules[r].revision
    ensures Ahead(states[|ops|], r, Slot(at, interval, 1), interval, m) && (m > 0 ==> !Stuck(states[|ops|], r))
    ensures Inv(states[|ops|])
  {
    hide Inv, Enabled, Apply, Stuck, Spent, Unfinished, NextSlot, Stored, Representable, Slot, FromJobs, InRange,
         ReplacePendingSchedule;
    var next := Slot(at, interval, 1);
    NextIsFirstSlot(db, r);
    assert Representable(next) by { RangeHas(at, interval, m + 1, 1); }
    states, ops := UnstuckAdvances(db, r, worker);
    var after := states[|ops|];
    InvariantOverRuns(states, ops, |ops|);
    RangeAfter(at, interval, m);
    SlotAfter(at, interval, m);
    FirstSlot(at, interval);
    assert Passes(states, ops, r, at, next);
    SlotsIncrease(at, interval, 0, m + 1);
    PassingLeavesOthers(states, ops, r, at, next, |ops|, db.rules[r].organizationId, Slot(at, interval, m + 1));
    LaterOverRuns(states, ops, 0, |ops|);
    SpentStays(db, after, r, Slot(at, interval, m + 1));
    forall j | 1 <= j < m ensures !Used(after, r, Slot(next, interval, j)) {
      SlotAfter(at, interval, j);
      SlotsIncrease(at, interval, 0, j + 1);
      SlotsIncrease(at, interval, 1, j + 1);
      PassingLeavesOthers(states, ops, r, at, next, |ops|, db.rules[r].organizationId, Slot(at, interval, j + 1));
    }
    if m > 0 {
      SlotsIncrease(at, interval, 0, 1);
      PassingLeavesOthers(states, ops, r, at, next, |ops|, db.rules[r].organizationId, next);
      FreshSlotIsNotStuck(db, after, r, next);
    }
  }

  lemma RangeHas(t0: Time, interval: int, m: int, j: int)
    requires InRange(t0, interval, m) && 1 <= j <= m
    ensures Representable(Slot(t0, interval, j))
  {
  }

  lemma FreshSlotIsNotStuck(db: Db, after: Db, r: string, next: Time)
    requires r in db.rules && r in after.rules && after.rules[r].organizationId == db.rules[r].organizationId
    requires !Used(db, r, next) && Stored(next) == next && after.rules[r].nextFireAt == Some(next)
    requires after.dispatches == ReplacePendingSchedule(db.dispatches, db.rules[r].organizationId, r, Some(next))
    requires !Received(after.triggers, db.rules[r].organizationId, TimerSource, ScheduleKey(r, next))
    ensures !Stuck(after, r)
  {
    hide Received, ScheduleKey, Unfinished;
    DispatchAfter(db.dispatches, db.rules[r].organizationId, r, Some(next), (r, next));
  }

  lemma {:induction false} RunsInto(db: Db, r: string, at: Time, interval: int, m: nat,
                                    worker: string) returns (states: seq<Db>, ops: seq<Op>)
    requires Ahead(db, r, at, interval, m) && (m > 0 ==> !Stuck(db, r))
    requires Inv(db)
    ensures Strands(db, r, states, ops)
    decreases m
  {
    hide Inv, Enabled, Apply, FromJobs, Ahead, Stuck;
    AheadRule(db, r, at, interval, m);
    if m == 0 {
      AtSpent(db, r, at, interval);
      states, ops := [db], [];
    } else {
      var s, o := Approach(db, r, at, interval, m - 1, worker);
      var s', o' := RunsInto(s[|o|], r, Slot(at, interval, 1), interval, m - 1, worker);
      states, ops := s + s'[1..], o + o';
      RunsJoin(s, o, s', o');
      forall n | 0 <= n < |ops| ensures FromJobs(states[n], ops[n], r) {
        if n < |o| {
          assert states[n] == s[n] && ops[n] == o[n];
        } else {
          assert ops[n] == o'[n - |o|] && states[n] == s'[n - |o|];
        }
      }
    }
  }

  lemma AheadRule(db: Db, r: string, at: Time, interval: int, m: nat)
    requires Ahead(db, r, at, interval, m)
    ensures r in db.rules && db.rules[r].Armable() && db.rules[r].nextFireAt == Some(at)
  {
  }

  lemma AtSpent(db: Db, r: string, at: Time, interval: int)
    requires Ahead(db, r, at, interval, 0)
    ensures Stuck(db, r)
  {
    hide Spent, Unfinished;
    FirstSlot(at, interval);
  }

  // ----- spending a used slot before its time -----

  /** A later slot with something left at it can be spent while the rule is still armed before it. */
  ghost predicate Spoils(db: Db, r: string, t: Time, states: seq<Db>, ops: seq<Op>)
    requires r in db.rules
  {
    && Run(states, ops) && states[0] == db && (forall n :: 0 <= n < |ops| ==> FromJobs(states[n], ops[n], r))
    && states[|ops|].rules == db.rules && states[|ops|].dispatches == db.dispatches
    && Spent(states[|ops|], r, t) && !Unfinished(states[|ops|], r, t) && !Stuck(states[|ops|], r)
    && CountersHaveRoom(states[|ops|])
    && (forall s :: s != t && Received(states[|ops|].triggers, db.rules[r].organizationId, TimerSource, ScheduleKey(r, s)) ==>
          Received(db.triggers, db.rules[r].organizationId, TimerSource, ScheduleKey(r, s)))
  }

  lemma SpoilsByWaiting(db: Db, r: string, t: Time)
    requires r in db.rules && Spent(db, r, t) && !Unfinished(db, r, t) && !Stuck(db, r) && CountersHaveRoom(db)
    ensures Spoils(db, r, t, [db], [])
  {
    hide Spent, Unfinished, Stuck;
  }

  /** Its unfinished execution is finished early, which does not move the rule. */
  lemma SpoilsByFinishing(db: Db, r: string, t: Time, worker: string) returns (states: seq<Db>, ops: seq<Op>)
    requires r in db.rules && db.rules[r].Armable() && db.rules[r].nextFireAt.Some? && db.rules[r].nextFireAt != Some(t)
    requires Unfinished(db, r, t) && !Stuck(db, r) && CountersHaveRoom(db)
    requires Inv(db)
    ensures Spoils(db, r, t, states, ops)
  {
    hide Inv, Apply, Enabled, ScheduleKey, Received, Stuck, OnlyEnded;
    var e :| e in ExecutionsOf(db.executions, r) && IsUnfinished(db, e, t);
    states, ops := FinishesEarly(db, r, e, t, worker);
    ExecutedIsReceived(db, e, r);
    EndedSlot(db, states[2], r, e, t);
    EndedRoom(db.executions, states[2].executions, e);
  }

  lemma EndedRoom(a: Executions, b: Executions, e: string)
    requires OnlyEnded(a, b, e)
    ensures forall f :: f in b && !b[f].Terminal() ==> f in a && !a[f].Terminal() && b[f].attempts == a[f].attempts
  {
  }

  /** Finishing the execution of another slot ends it, and changes nothing else that a schedule depends on. */
  lemma FinishesEarly(db: Db, r: string, e: string, t: Time, worker: string) returns (states: seq<Db>, ops: seq<Op>)
    requires r in db.rules && db.rules[r].nextFireAt != Some(t) && CountersHaveRoom(db)
    requires e in ExecutionsOf(db.executions, r) && IsUnfinished(db, e, t)
    requires Inv(db)
    ensures Run(states, ops) && |ops| == 2 && states[0] == db && ops[0].ClaimOp? && ops[1].CompleteOp?
    ensures states[2].rules == db.rules && states[2].dispatches == db.dispatches && states[2].triggers == db.triggers
    ensures OnlyEnded(db.executions, states[2].executions, e) && SameIdentity(db.executions[e], states[2].executions[e])
  {
    hide Inv, AdvanceSchedule, ClaimAll, Stored, ReplacePendingSchedule;
    var claimOp, claim := UnfinishedIsClaimable(db, e, worker);
    var claimed := Apply(db, claimOp);
    var endOp := CompleteOp(claim, true, None, claimOp.now);
    SourceTellsPayload(db, claim.triggerId);
    var ended := EndAttempt(claimed, claim, Succeeded, AttemptSucceeded, None);
    EndFrame(claimed, claim, Succeeded, AttemptSucceeded, None);
    OtherSlotStays(ended, r, claim.payload, claimOp.now);
    states, ops := [db, claimed, ended], [claimOp, endOp];
  }

  lemma EndedSlot(db: Db, after: Db, r: string, e: string, t: Time)
    requires r in db.rules && db.rules[r].Armable() && db.rules[r].nextFireAt.Some? && db.rules[r].nextFireAt != Some(t)
    requires e in ExecutionsOf(db.executions, r) && IsUnfinished(db, e, t) && !Stuck(db, r)
    requires after.rules == db.rules && after.triggers == db.triggers && after.dispatches == db.dispatches
    requires OnlyEnded(db.executions, after.executions, e) && SameIdentity(db.executions[e], after.executions[e])
    requires Inv(db)
    ensures !Unfinished(after, r, t) && !Stuck(after, r)
  {
    hide Inv, ScheduleKey, Received;
    if f :| f in ExecutionsOf(after.executions, r) && IsUnfinished(after, f, t) {
      OneExecutionPerSlot(db, e, f);
    }
    var at := db.rules[r].nextFireAt.value;
    if Unfinished(db, r, at) {
      var f :| f in ExecutionsOf(db.executions, r) && IsUnfinished(db, f, at);
      assert f != e && f in ExecutionsOf(after.executions, r) && IsUnfinished(after, f, at);
    }
  }

  /** Its job is delivered early, and rejected. */
  lemma SpoilsByDelivering(db: Db, r: string, t: Time) returns (states: seq<Db>, ops: seq<Op>)
    requires r in db.rules && db.rules[r].Armable() && db.rules[r].nextFireAt.Some? && db.rules[r].nextFireAt != Some(t)
    requires (r, t) in db.dispatches && !Spent(db, r, t) && !Unfinished(db, r, t) && !Stuck(db, r) && CountersHaveRoom(db)
    requires Inv(db)
    ensures Spoils(db, r, t, states, ops)
  {
    hide Inv, ScheduleKey, Unfinished;
    var triggerId := FreshId(db.triggers.Keys);
    var executionId := FreshId(db.executions.Keys);
    DispatchOrganization(db, (r, t));
    var op := ReceiveTimerOp(db.rules[r].organizationId, r, ScheduleKey(r, t), t, triggerId, executionId);
    var after := Apply(db, op);
    states, ops := [db, after], [op];
    RejectedTimer(db, op, r);
    RecordedTimer(db, op);
    IsReceived(after.triggers, db.rules[r].organizationId, TimerSource, ScheduleKey(r, t), triggerId);
    RecordedUnfinished(db, after, triggerId, r, t);
    forall s | Received(after.triggers, db.rules[r].organizationId, TimerSource, ScheduleKey(r, s)) && s != t
      ensures Received(db.triggers, db.rules[r].organizationId, TimerSource, ScheduleKey(r, s))
    {
      StepReceives(db, op, db.rules[r].organizationId, r, s);
    }
    RecordedNotStuck(db, after, triggerId, r);
  }

  lemma RejectedTimer(db: Db, op: Op, r: string)
    requires op.ReceiveTimerOp? && Enabled(db, op) && op.ruleId == r && r in db.rules && db.rules[r].nextFireAt != Some(op.scheduledFor)
    requires op.dedupeKey == ScheduleKey(r, op.scheduledFor) && !Received(db.triggers, op.organizationId, TimerSource, op.dedupeKey)
    ensures Apply(db, op) == db.(triggers := db.triggers[op.triggerId := TimerReceipt(op.organizationId, r, op.dedupeKey, op.scheduledFor)])
  {
    hide ScheduleKey, Received, InsertExecution;
  }

  lemma RecordedNotStuck(db: Db, after: Db, triggerId: string, r: string)
    requires !Stuck(db, r) && r in db.rules && db.rules[r].Armable() && db.rules[r].nextFireAt.Some?
    requires triggerId !in db.triggers && triggerId in after.triggers && after == db.(triggers := db.triggers[triggerId := after.triggers[triggerId]])
    requires forall s :: s != SlotOfTimer(after.triggers[triggerId]) && Received(after.triggers, db.rules[r].organizationId, TimerSource, ScheduleKey(r, s)) ==>
               Received(db.triggers, db.rules[r].organizationId, TimerSource, ScheduleKey(r, s))
    requires db.rules[r].nextFireAt.value != SlotOfTimer(after.triggers[triggerId])
    requires Inv(db)
    ensures !Stuck(after, r)
  {
    hide Inv, ScheduleKey, Received;
    var at := db.rules[r].nextFireAt.value;
    ExecutionsReferTriggers(db);
    if Unfinished(db, r, at) {
      var f :| f in ExecutionsOf(db.executions, r) && IsUnfinished(db, f, at);
      assert f in ExecutionsOf(after.executions, r) && IsUnfinished(after, f, at);
    }
  }

  function SlotOfTimer(t: TriggerReceipt): Time {
    if t.payload.TimerPayload? then t.payload.scheduledFor else 0
  }

  lemma SpoilSlot(db: Db, r: string, t: Time, worker: string) returns (states: seq<Db>, ops: seq<Op>)
    requires r in db.rules && db.rules[r].Armable() && db.rules[r].nextFireAt.Some? && db.rules[r].nextFireAt != Some(t)
    requires Used(db, r, t) && !Stuck(db, r) && CountersHaveRoom(db)
    requires Inv(db)
    ensures Spoils(db, r, t, states, ops)
  {
    hide Inv, Stuck, Unfinished, ScheduleKey, Received, Spoils, CountersHaveRoom;
    if Unfinished(db, r, t) {
      states, ops := SpoilsByFinishing(db, r, t, worker);
    } else if Spent(db, r, t) {
      SpoilsByWaiting(db, r, t);
      states, ops := [db], [];
    } else {
      states, ops := SpoilsByDelivering(db, r, t);
    }
  }

  // ----- the condition -----

  /** Something is left at a slot after the armed one that the rule would come to. */
  ghost predicate UsedAhead(db: Db, r: string)
    requires r in db.rules && db.rules[r].nextFireAt.Some?
  {
    exists j :: 1 <= j && InRange(db.rules[r].nextFireAt.value, IntervalOf(db.rules[r]), j)
                && Used(db, r, Slot(db.rules[r].nextFireAt.value, IntervalOf(db.rules[r]), j))
  }

  lemma {:induction false} LeastUsed(db: Db, r: string, j: nat) returns (m: nat)
    requires r in db.rules && db.rules[r].nextFireAt.Some? && 1 <= j
    requires InRange(db.rules[r].nextFireAt.value, IntervalOf(db.rules[r]), j)
    requires Used(db, r, Slot(db.rules[r].nextFireAt.value, IntervalOf(db.rules[r]), j))
    ensures 1 <= m <= j && InRange(db.rules[r].nextFireAt.value, IntervalOf(db.rules[r]), m)
    ensures Used(db, r, Slot(db.rules[r].nextFireAt.value, IntervalOf(db.rules[r]), m))
    ensures forall i :: 1 <= i < m ==> !Used(db, r, Slot(db.rules[r].nextFireAt.value, IntervalOf(db.rules[r]), i))
    decreases j
  {
    hide Used, Slot, Representable;
    var at, interval := db.rules[r].nextFireAt.value, IntervalOf(db.rules[r]);
    if i :| 1 <= i < j && Used(db, r, Slot(at, interval, i)) {
      m := LeastUsed(db, r, i);
    } else {
      m := j;
    }
  }

  lemma UsedAheadStrands(db: Db, r: string, worker: string) returns (states: seq<Db>, ops: seq<Op>)
    requires r in db.rules && db.rules[r].Armable() && db.rules[r].nextFireAt.Some? && UsedAhead(db, r)
    requires !Stuck(db, r) && CountersHaveRoom(db)
    requires Inv(db)
    ensures Strands(db, r, states, ops)
  {
    hide Inv, Enabled, Apply, FromJobs, Stuck, Used, Spent, Unfinished, CountersHaveRoom, Slot, InRange, Received, ScheduleKey;
    var at, interval := db.rules[r].nextFireAt.value, IntervalOf(db.rules[r]);
    var j :| 1 <= j && InRange(at, interval, j) && Used(db, r, Slot(at, interval, j));
    var m := LeastUsed(db, r, j);
    ArmedIsAligned(db, r);
    FirstSlot(at, interval);
    SlotsIncrease(at, interval, 0, m);
    var s, o := SpoilSlot(db, r, Slot(at, interval, m), worker);
    InvariantOverRuns(s, o, |o|);
    forall i | 1 <= i < m ensures !Used(s[|o|], r, Slot(at, interval, i)) {
      SlotsIncrease(at, interval, i, m);
      StaysUnused(db, s[|o|], r, Slot(at, interval, i));
    }
    var s', o' := RunsInto(s[|o|], r, at, interval, m, worker);
    states, ops := s + s'[1..], o + o';
    RunsJoin(s, o, s', o');
    forall n | 0 <= n < |ops| ensures FromJobs(states[n], ops[n], r) {
      if n < |o| {
        assert states[n] == s[n] && ops[n] == o[n];
      } else {
        assert ops[n] == o'[n - |o|] && states[n] == s'[n - |o|];
      }
    }
  }

  lemma StaysUnused(db: Db, after: Db, r: string, t: Time)
    requires r in db.rules && after.rules == db.rules && after.dispatches == db.dispatches && !Used(db, r, t)
    requires Received(after.triggers, db.rules[r].organizationId, TimerSource, ScheduleKey(r, t)) ==>
               Received(db.triggers, db.rules[r].organizationId, TimerSource, ScheduleKey(r, t))
    ensures !Used(after, r, t)
  {
  }

  /** An armed schedule can end up stuck without an edit if and only if it is stuck already, or a slot it would come
      to has a dispatch or a received timer. */
  lemma StrandsIffUsedAhead(db: Db, r: string)
    requires r in db.rules && db.rules[r].Armable() && db.rules[r].nextFireAt.Some? && CountersHaveRoom(db)
    requires Inv(db)
    ensures (exists states, ops :: Strands(db, r, states, ops)) <==> Stuck(db, r) || UsedAhead(db, r)
  {
    hide Inv, Enabled, Apply, FromJobs, Stuck, Used, Strands, CountersHaveRoom, Slot, InRange;
    if Stuck(db, r) {
      StuckStrands(db, r);
    } else if UsedAhead(db, r) {
      var states, ops := UsedAheadStrands(db, r, "");
    } else {
      forall states, ops ensures !Strands(db, r, states, ops) {
        ClearNeverStrands(db, r, states, ops);
      }
    }
  }

  lemma StuckStrands(db: Db, r: string)
    requires Stuck(db, r) && r in db.rules
    ensures Strands(db, r, [db], [])
  {
    hide Stuck;
  }

  lemma ClearNeverStrands(db: Db, r: string, states: seq<Db>, ops: seq<Op>)
    requires r in db.rules && db.rules[r].Armable() && db.rules[r].nextFireAt.Some? && !UsedAhead(db, r) && !Stuck(db, r)
    requires Inv(db)
    ensures !Strands(db, r, states, ops)
  {
    hide Inv, Enabled, Apply, FromJobs, Stuck, Used, Slot, InRange;
    if Strands(db, r, states, ops) {
      StuckIffStuckFirst(states, ops, 0, |ops|, r);
    }
  }

  // ----- the condition at an edit -----

  ghost predicate LeftAt(db: Db, organizationId: string, r: string, t: Time) {
    (r, t) in db.dispatches || Received(db.triggers, organizationId, TimerSource, ScheduleKey(r, t))
  }

  /** The slot itself cannot run: nothing of it is to finish, and its timer was received or its key will not match. */
  ghost predicate StartsStuck(db: Db, organizationId: string, r: string, at: Time, aligned: bool) {
    && !Unfinished(db, r, at)
    && (Received(db.triggers, organizationId, TimerSource, ScheduleKey(r, at))
        || if (r, at) in db.dispatches then !KeyMatches(db.dispatches, (r, at)) else !aligned)
  }

  lemma EditStartsStuck(db: Db, op: Op, r: string)
    requires Enabled(db, op) && Arms(db, Apply(db, op), r) && op.ManageOp?
    requires Representable(op.clock) && Representable(ArmedFrom(Apply(db, op).rules[r], op.clock))
    requires Inv(db)
    ensures var rule := Apply(db, op).rules[r];
            Stuck(Apply(db, op), r) <==> StartsStuck(db, rule.organizationId, r, rule.nextFireAt.value, Aligned(ArmedFrom(rule, op.clock)))
  {
    hide Inv, Apply, Enabled, Received, KeyMatches, ScheduleKey, Representable, Base, Aligned;
    var after := Apply(db, op);
    StepWrites(db, op);
    ArmedKey(db, op, r);
    SameUnfinished(db, after, r, after.rules[r].nextFireAt.value);
    KeyOf(after.dispatches, (r, after.rules[r].nextFireAt.value));
  }

  lemma KeyOf(ds: Dispatches, k: (string, Time))
    requires k in ds
    ensures KeyMatches(ds, k) <==> ds[k].idempotencyKey == ScheduleKey(k.0, k.1)
  {
  }

  lemma SameUnfinished(a: Db, b: Db, r: string, t: Time)
    requires b.executions == a.executions && b.triggers == a.triggers
    ensures Unfinished(b, r, t) <==> Unfinished(a, r, t)
  {
    if e :| e in ExecutionsOf(a.executions, r) && IsUnfinished(a, e, t) {
      assert e in ExecutionsOf(b.executions, r) && IsUnfinished(b, e, t);
    }
    if e :| e in ExecutionsOf(b.executions, r) && IsUnfinished(b, e, t) {
      assert e in ExecutionsOf(a.executions, r) && IsUnfinished(a, e, t);
    }
  }

  lemma EditUsesAhead(db: Db, op: Op, r: string, j: nat)
    requires Enabled(db, op) && Arms(db, Apply(db, op), r) && 1 <= j
    requires Inv(db)
    ensures var rule := Apply(db, op).rules[r];
            var t := Slot(rule.nextFireAt.value, IntervalOf(rule), j);
            Used(Apply(db, op), r, t) <==> LeftAt(db, rule.organizationId, r, t)
  {
    hide Inv, Apply, Enabled, Received, ScheduleKey, InitialNextFire, Slot;
    var after := Apply(db, op);
    var rule := after.rules[r];
    var first := ArmedDispatch(db, op, r);
    ArmingCommits(db, op, r);
    StepWrites(db, op);
    StepIsLater(db, op);
    StepKeepsInvariant(db, op);
    InvariantArmable(after, r);
    FirstSlot(rule.nextFireAt.value, IntervalOf(rule));
    SlotsIncrease(rule.nextFireAt.value, IntervalOf(rule), 0, j);
  }

  /** What a caller can look up before committing a command that arms a rule at a slot: the schedule can end up stuck
      without a further edit if and only if that slot cannot run, or a slot it would come to has a dispatch or a
      received timer. */
  lemma EditStrandsIff(db: Db, op: Op, r: string)
    requires Enabled(db, op) && Arms(db, Apply(db, op), r) && op.ManageOp?
    requires Representable(op.clock) && Representable(ArmedFrom(Apply(db, op).rules[r], op.clock)) && CountersHaveRoom(db)
    requires Inv(db)
    ensures var rule := Apply(db, op).rules[r];
            var at, interval := rule.nextFireAt.value, IntervalOf(rule);
            (exists states, ops :: Strands(Apply(db, op), r, states, ops))
            <==> || StartsStuck(db, rule.organizationId, r, at, Aligned(ArmedFrom(rule, op.clock)))
                 || (exists j :: 1 <= j && InRange(at, interval, j) && LeftAt(db, rule.organizationId, r, Slot(at, interval, j)))
  {
    hide Inv, Apply, Enabled, Strands, Stuck, StartsStuck, Used, LeftAt, Slot, InRange, Representable, Base, Aligned;
    var after := Apply(db, op);
    var rule := after.rules[r];
    var at, interval := rule.nextFireAt.value, IntervalOf(rule);
    StepKeepsInvariant(db, op);
    StepWrites(db, op);
    EditStartsStuck(db, op, r);
    StrandsIffUsedAhead(after, r);
    forall j: nat | 1 <= j ensures Used(after, r, Slot(at, interval, j)) <==> LeftAt(db, rule.organizationId, r, Slot(at, interval, j)) {
      EditUsesAhead(db, op, r, j);
    }
  }
}
