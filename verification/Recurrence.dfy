/** Whether an unedited schedule really runs. With nothing left ahead of it, it is never stuck unless it is stuck where
    it was armed, and what decides that is the key of the dispatch it was armed with. */
module Recurrence {
  import opened Results
  import opened Text
  import opened Schedule
  import opened Rules
  import opened Payloads
  import opened Targets
  import opened Keys
  import opened Tables
  import opened Transactions
  import opened Invariants
  import opened Preservation
  import opened Runs
  import opened Frames
  import opened History
  import opened Intakes
  import opened CommandLaws
  import opened RuleSteps
  import opened Stalling
  import opened Progression

  /** Later dispatches of the progression carry the keys that intake expects, and so does the first one, unless it
      already has its execution. */
  ghost predicate Runnable(db: Db, r: string, t0: Time, interval: int) {
    && (forall d :: d in db.dispatches && d.0 == r && OnGrid(t0, interval, d.1) && d.1 != t0 ==> KeyMatches(db.dispatches, d))
    && (Visited(db, r, t0, interval, 0) || ((r, t0) in db.dispatches && KeyMatches(db.dispatches, (r, t0))))
  }

  ghost predicate KeyMatches(ds: Dispatches, k: (string, Time))
    requires k in ds
  {
    ds[k].idempotencyKey == ScheduleKey(k.0, k.1)
  }

  lemma KeyStays(a: Db, b: Db, k: (string, Time))
    requires k in a.dispatches && Later(a, b)
    ensures k in b.dispatches && (KeyMatches(b.dispatches, k) <==> KeyMatches(a.dispatches, k))
  {
    hide ScheduleKey, RulesLater, ExecutionsLater, AttemptsLater, ReceiptsLater, Kept;
    assert DispatchLater(a.dispatches[k], b.dispatches[k]);
  }

  lemma VisitedStays(a: Db, b: Db, r: string, t0: Time, interval: int, j: int)
    requires Visited(a, r, t0, interval, j) && Later(a, b)
    ensures Visited(b, r, t0, interval, j)
  {
    hide RulesLater, AttemptsLater, ReceiptsLater, DispatchesLater, OnGrid, Slot;
    var e :| e in Recurrences(a, r, t0, interval) && SlotOf(a, e) == Slot(t0, interval, j);
    assert ExecutionLater(a.executions[e], b.executions[e]);
    assert e in Recurrences(b, r, t0, interval);
  }

  lemma RunnableStays(a: Db, b: Db, r: string, t0: Time, interval: int)
    requires Runnable(a, r, t0, interval) && Later(a, b)
    requires forall d :: d in b.dispatches && d.0 == r && d !in a.dispatches ==> KeyMatches(b.dispatches, d)
    ensures Runnable(b, r, t0, interval)
  {
    hide Later, KeyMatches, Visited, OnGrid;
    forall d | d in b.dispatches && d.0 == r && OnGrid(t0, interval, d.1) && d.1 != t0 ensures KeyMatches(b.dispatches, d) {
      if d in a.dispatches {
        KeyStays(a, b, d);
      }
    }
    if Visited(a, r, t0, interval, 0) {
      VisitedStays(a, b, r, t0, interval, 0);
    } else {
      KeyStays(a, b, (r, t0));
    }
  }

  lemma CompletionKeys(db: Db, op: Op, r: string, t0: Time, d: (string, Time))
    requires op.CompleteOp? && Enabled(db, op) && op.claim.ruleId == r && Progresses(db, r, t0)
    requires d in Apply(db, op).dispatches && d.0 == r && d !in db.dispatches
    requires Inv(db)
    ensures KeyMatches(Apply(db, op).dispatches, d)
  {
    hide Inv, AdvanceSchedule, ReplacePendingSchedule, Slot, Placed, Stored, Representable, Apply, OnGrid, FinishedCount,
         ScheduleKey, Recurrences, InRange;
    var claim := op.claim;
    if !HoldsLease(db.executions, claim, op.now) {
      StaleCompletion(db, op);
    } else if claim.executionId !in Recurrences(db, r, t0, IntervalOf(db.rules[r])) {
      OtherCompletionAddsNothing(db, op, r, t0);
    } else {
      var k := FinishedCount(db, r, t0);
      var next := Slot(t0, IntervalOf(db.rules[r]), k + 1);
      RecurrenceFacts(db, claim.executionId, r, t0);
      SourceTellsPayload(db, claim.triggerId);
      CompletionResult(db, op);
      var ended := EndAttempt(db, claim, if op.succeeded then Succeeded else Failed,
                              if op.succeeded then AttemptSucceeded else AttemptFailed, op.failure);
      AdvancesOneSlot(ended, claim.payload, op.now, r, t0, k);
      StoredSlot(t0, IntervalOf(db.rules[r]), k + 1);
      DispatchAfter(db.dispatches, db.rules[r].organizationId, r, Some(next), d);
    }
  }

  lemma RecurrenceFacts(db: Db, e: string, r: string, t0: Time)
    requires Progresses(db, r, t0) && e in Recurrences(db, r, t0, IntervalOf(db.rules[r])) && !db.executions[e].Terminal()
    requires Inv(db)
    ensures IsTimerExecution(db, e) && SlotOf(db, e) == Slot(t0, IntervalOf(db.rules[r]), FinishedCount(db, r, t0))
  {
    hide Inv, Slot, OnGrid, FinishedCount;
    RunningIsCurrent(db, e, r, t0);
  }

  lemma OtherCompletionAddsNothing(db: Db, op: Op, r: string, t0: Time)
    requires op.CompleteOp? && Enabled(db, op) && op.claim.ruleId == r && Progresses(db, r, t0)
    requires HoldsLease(db.executions, op.claim, op.now) && op.claim.executionId !in Recurrences(db, r, t0, IntervalOf(db.rules[r]))
    requires Inv(db)
    ensures Apply(db, op).dispatches == db.dispatches
  {
    hide Inv, AdvanceSchedule, EndAttempt, HoldsLease, Slot, Placed, OnGrid, FinishedCount, InRange;
    var claim := op.claim;
    var status := if op.succeeded then Succeeded else Failed;
    var ended := EndAttempt(db, claim, status, LastAttemptStatus(status), op.failure);
    EndFrame(db, claim, status, LastAttemptStatus(status), op.failure);
    SourceTellsPayload(db, claim.triggerId);
    OnGridSlot(t0, IntervalOf(db.rules[r]), FinishedCount(db, r, t0));
    if claim.payload.TimerPayload? {
      assert claim.executionId in ExecutionsOf(db.executions, r) && IsTimerExecution(db, claim.executionId);
      OtherSlotStays(ended, r, claim.payload, op.now);
    }
  }

  lemma StepKeepsRunnable(db: Db, op: Op, r: string, t0: Time)
    requires Enabled(db, op) && Progresses(db, r, t0) && Runnable(db, r, t0, IntervalOf(db.rules[r]))
    requires r in Apply(db, op).rules && Apply(db, op).rules[r].revision == db.rules[r].revision
    requires Inv(db)
    ensures Runnable(Apply(db, op), r, t0, IntervalOf(Apply(db, op).rules[r]))
  {
    hide Inv, Enabled, Apply, Progresses, Undisturbed, Later, Runnable, OnGrid, KeyMatches;
    RuleOf(db, r, t0);
    StepIsLater(db, op);
    StepWrites(db, op);
    var after := Apply(db, op);
    if op.CompleteOp? && op.claim.ruleId == r {
      CompletionKeepsInterval(db, op, r);
      forall d | d in after.dispatches && d.0 == r && d !in db.dispatches ensures KeyMatches(after.dispatches, d) {
        CompletionKeys(db, op, r, t0, d);
      }
    } else if !op.ReceiveTimerOp? {
      StepElsewhere(db, op, r);
      NoNewDispatch(db, after, r);
    }
    RunnableStays(db, after, r, t0, IntervalOf(db.rules[r]));
  }

  lemma CompletionKeepsInterval(db: Db, op: Op, r: string)
    requires op.CompleteOp? && Enabled(db, op) && r in db.rules
    ensures r in Apply(db, op).rules && IntervalOf(Apply(db, op).rules[r]) == IntervalOf(db.rules[r])
  {
    hide CompleteExecution, Genuine;
    CompletionKeepsRevisions(db, op.claim, op.succeeded, op.failure, op.now, r);
  }

  lemma NoNewDispatch(a: Db, b: Db, r: string)
    requires Undisturbed(a, b, r)
    ensures (forall d :: d in b.dispatches && d.0 == r ==> d in a.dispatches) && b.rules[r] == a.rules[r]
  {
  }

  /** A rule that is not stuck can run its armed slot. */
  lemma ClearIsRunnable(db: Db, r: string)
    requires r in db.rules && db.rules[r].Armable() && db.rules[r].nextFireAt.Some? && Clear(db, r) && !Stuck(db, r)
    requires Inv(db)
    ensures Runnable(db, r, db.rules[r].nextFireAt.value, IntervalOf(db.rules[r]))
  {
    hide Inv, Clear, OnGrid, Slot, ScheduleKey, InRange;
    var t0, interval := db.rules[r].nextFireAt.value, IntervalOf(db.rules[r]);
    forall d | d in db.dispatches && d.0 == r && OnGrid(t0, interval, d.1) ensures d.1 == t0 {
      assert d == (r, d.1) && Used(db, r, d.1);
      ClearOnGrid(db, r, d.1);
    }
    InvariantArmable(db, r);
    if Unfinished(db, r, t0) {
      var e :| e in ExecutionsOf(db.executions, r) && IsUnfinished(db, e, t0);
      FirstSlot(t0, interval);
      OnGridSlot(t0, interval, 0);
      assert e in Recurrences(db, r, t0, interval);
    }
  }

  /** In a progressing state the armed slot has a live dispatch, and if its timer was received, an unfinished
      execution owns it: the chain never waits for nothing. */
  lemma ArmedSlotIsLive(db: Db, r: string, t0: Time)
    requires Progresses(db, r, t0)
    requires Inv(db)
    ensures LiveDispatch(db.dispatches, r, db.rules[r].nextFireAt.value)
    ensures Received(db.triggers, db.rules[r].organizationId, TimerSource, ScheduleKey(r, db.rules[r].nextFireAt.value)) ==>
              Unfinished(db, r, db.rules[r].nextFireAt.value)
  {
    hide Inv, ScheduleKey, Received, Unfinished, Slot, Placed, FinishedCount, InRange;
    InvariantArmable(db, r);
    if Received(db.triggers, db.rules[r].organizationId, TimerSource, ScheduleKey(r, db.rules[r].nextFireAt.value)) {
      ReceivedIsUnfinished(db, r, t0);
    }
  }

  lemma ReceivedIsUnfinished(db: Db, r: string, t0: Time)
    requires Progresses(db, r, t0) && Received(db.triggers, db.rules[r].organizationId, TimerSource, ScheduleKey(r, db.rules[r].nextFireAt.value))
    requires Inv(db)
    ensures Unfinished(db, r, db.rules[r].nextFireAt.value)
  {
    hide References, Ledger, DispatchKeys, IntakeOk, Leases, ReceiptsOk, CommandsOk, NamesOk, RulesValid, SnapshotsValid,
         ScheduleKey, Slot, Aligned, OnGrid, FinishedCount, InRange;
    var at := db.rules[r].nextFireAt.value;
    var t :| t in db.triggers && IsReceipt(db.triggers[t], db.rules[r].organizationId, TimerSource, ScheduleKey(r, at));
    assert TriggerOk(db.triggers[t]);
    KeysAreInjective(db.triggers[t].payload.ruleId, db.triggers[t].payload.scheduledFor, r, at);
    OnGridSlot(t0, IntervalOf(db.rules[r]), FinishedCount(db, r, t0));
    assert OnGridTimer(db.triggers[t], db.rules[r].organizationId, r, t0, IntervalOf(db.rules[r])) && HasExecution(db, r, t);
    var e :| e in ExecutionsOf(db.executions, r) && db.executions[e].triggerId == t;
    assert e in Recurrences(db, r, t0, IntervalOf(db.rules[r])) && Recurs(db, e, t0, IntervalOf(db.rules[r]), FinishedCount(db, r, t0));
    assert IsUnfinished(db, e, at);
  }

  lemma ProgressingIsNotStuck(db: Db, r: string, t0: Time)
    requires Progresses(db, r, t0) && Runnable(db, r, t0, IntervalOf(db.rules[r]))
    requires Inv(db)
    ensures !Stuck(db, r)
  {
    hide Inv, ScheduleKey, Received, Unfinished, Slot, Placed, OnGrid, FinishedCount, InRange, Recurrences;
    var at, interval := db.rules[r].nextFireAt.value, IntervalOf(db.rules[r]);
    OnGridSlot(t0, interval, FinishedCount(db, r, t0));
    ArmedSlotIsLive(db, r, t0);
    if at == t0 && Visited(db, r, t0, interval, 0) {
      FirstSlot(t0, interval);
      VisitedIsReceived(db, r, t0, interval);
    }
  }

  lemma VisitedIsReceived(db: Db, r: string, t0: Time, interval: int)
    requires r in db.rules && Visited(db, r, t0, interval, 0)
    requires Inv(db)
    ensures Received(db.triggers, db.rules[r].organizationId, TimerSource, ScheduleKey(r, t0))
  {
    hide Inv, OnGrid, Slot, ScheduleKey, Received;
    FirstSlot(t0, interval);
    var e :| e in Recurrences(db, r, t0, interval) && SlotOf(db, e) == Slot(t0, interval, 0);
    ExecutedIsReceived(db, e, r);
  }

  lemma {:induction false} RunnableOverRuns(states: seq<Db>, ops: seq<Op>, i: nat, j: nat, r: string)
    requires Run(states, ops) && i <= j < |states|
    requires r in states[i].rules && states[i].rules[r].Armable() && states[i].rules[r].nextFireAt.Some?
    requires Clear(states[i], r) && !Stuck(states[i], r)
    requires r in states[j].rules && states[j].rules[r].revision == states[i].rules[r].revision
    requires forall n :: i <= n < j ==> FromJobs(states[n], ops[n], r)
    requires Inv(states[0])
    ensures Runnable(states[j], r, states[i].rules[r].nextFireAt.value, IntervalOf(states[j].rules[r]))
    decreases j
  {
    hide Inv, Enabled, Apply, Progresses, FromJobs, Clear, Stuck, Runnable;
    InvariantOverRuns(states, ops, i);
    if j == i {
      ClearIsRunnable(states[i], r);
    } else {
      UneditedBefore(states, ops, i, j - 1, r);
      RunnableOverRuns(states, ops, i, j - 1, r);
      RecurringProgression(states, ops, i, j - 1, r);
      InvariantOverRuns(states, ops, j - 1);
      StepKeepsRunnable(states[j - 1], ops[j - 1], r, states[i].rules[r].nextFireAt.value);
    }
  }

  /** With nothing left ahead of it, an unedited schedule is stuck later if and only if it is stuck now. */
  lemma StuckIffStuckFirst(states: seq<Db>, ops: seq<Op>, i: nat, j: nat, r: string)
    requires Run(states, ops) && i <= j < |states|
    requires r in states[i].rules && states[i].rules[r].Armable() && states[i].rules[r].nextFireAt.Some? && Clear(states[i], r)
    requires r in states[j].rules && states[j].rules[r].revision == states[i].rules[r].revision
    requires forall n :: i <= n < j ==> FromJobs(states[n], ops[n], r)
    requires Inv(states[0])
    ensures Stuck(states[j], r) <==> Stuck(states[i], r)
  {
    hide Inv, Enabled, Apply, Progresses, FromJobs, Clear, Stuck, Runnable;
    if Stuck(states[i], r) {
      StuckSchedulesStay(states, ops, i, j, r);
    } else {
      RunnableOverRuns(states, ops, i, j, r);
      RecurringProgression(states, ops, i, j, r);
      InvariantOverRuns(states, ops, j);
      ProgressingIsNotStuck(states[j], r, states[i].rules[r].nextFireAt.value);
    }
  }

  /** So from each of its later states that has a next slot it can go on, if and only if it was not stuck. */
  lemma GoesOnIffNotStuckFirst(states: seq<Db>, ops: seq<Op>, i: nat, j: nat, r: string, worker: string)
    requires Run(states, ops) && i <= j < |states|
    requires r in states[i].rules && states[i].rules[r].Armable() && states[i].rules[r].nextFireAt.Some? && Clear(states[i], r)
    requires r in states[j].rules && states[j].rules[r].revision == states[i].rules[r].revision && CountersHaveRoom(states[j])
    requires forall n :: i <= n < j ==> FromJobs(states[n], ops[n], r)
    requires Inv(states[0])
    ensures (exists s, o :: MovesOn(states[j], r, s, o)) <==> !Stuck(states[i], r) && NextSlot(states[j].rules[r]).Some?
  {
    hide Inv, Enabled, Apply, Progresses, FromJobs, Clear, Stuck, MovesOn, NextSlot, CountersHaveRoom;
    InvariantOverRuns(states, ops, j);
    StuckIffStuckFirst(states, ops, i, j, r);
    if Stuck(states[i], r) {
      StuckArmable(states[j], r);
    } else {
      RecurringProgression(states, ops, i, j, r);
      RuleOf(states[j], r, states[i].rules[r].nextFireAt.value);
    }
    GoesOnIffNotStuck(states[j], r, worker);
  }

  lemma StuckArmable(db: Db, r: string)
    requires Stuck(db, r)
    ensures r in db.rules && db.rules[r].Armable()
  {
  }

  // ----- arming -----

  /** A step that creates, enables or edits a rule and leaves it armed. */
  ghost predicate Arms(before: Db, after: Db, r: string) {
    && r in after.rules && after.rules[r].Armable() && after.rules[r].nextFireAt.Some?
    && (r in before.rules ==> before.rules[r].revision != after.rules[r].revision)
  }

  /** The instant a rule's first fire was counted from, when a step with this clock armed it. */
  function ArmedFrom(rule: Rule, clock: Time): Time {
    Base(rule.trigger.startAt, clock)
  }

  lemma ArmingCommits(db: Db, op: Op, r: string)
    requires Enabled(db, op) && Arms(db, Apply(db, op), r)
    requires Inv(db)
    ensures op.ManageOp? && Commits(db, op) && op.request.ruleId == r
  {
    hide Inv, Apply, Enabled;
    if op.ManageOp? {
      CommitOrNothing(db, op);
      if Commits(db, op) {
        CommitFacts(db, op);
      }
    } else if op.CompleteOp? {
      CompletionKeepsRule(db, op, r);
    } else {
      OnlyCommandsAndAdvancesWriteRules(db, op);
    }
  }

  lemma CompletionKeepsRule(db: Db, op: Op, r: string)
    requires op.CompleteOp? && Enabled(db, op)
    ensures r in Apply(db, op).rules <==> r in db.rules
    ensures r in db.rules ==> Apply(db, op).rules[r].revision == db.rules[r].revision
  {
    hide CompleteExecution, Genuine;
    CompletionKeepsRevisions(db, op.claim, op.succeeded, op.failure, op.now, r);
  }

  /** The dispatch of an armed slot: a row that was there keeps its key, a new one is keyed by the unrounded fire. */
  lemma ArmedDispatch(db: Db, op: Op, r: string) returns (first: Time)
    requires Enabled(db, op) && Arms(db, Apply(db, op), r)
    requires Inv(db)
    ensures op.ManageOp? && InitialNextFire(Apply(db, op).rules[r].trigger, true, op.clock) == Ok(Some(first))
    ensures Apply(db, op).rules[r].nextFireAt == Some(Stored(first))
    ensures forall d :: d in Apply(db, op).dispatches && d.0 == r ==> d in db.dispatches || d.1 == Stored(first)
    ensures var k := (r, Stored(first));
            && k in Apply(db, op).dispatches
            && Apply(db, op).dispatches[k].idempotencyKey
               == if k in db.dispatches then db.dispatches[k].idempotencyKey else ScheduleKey(r, first)
  {
    hide Inv, ValidRequest, ReplacePendingSchedule, InitialNextFire, ScheduleKey;
    ArmingCommits(db, op, r);
    var (rule, next) := ChangedRule(db.rules, op.request, op.clock, op.now, op.rowSeq).value;
    InvariantNames(db);
    ChangedRuleFacts(db.rules, op.request, op.clock, op.now, op.rowSeq);
    first := next.value;
    ArmedDispatches(db.dispatches, op.request.organizationId, r, first);
    DispatchAfter(db.dispatches, op.request.organizationId, r, next, (r, Stored(first)));
  }

  /** The key of an armed slot is the one intake expects exactly when the row it found had it, or, if there was no
      row, when the first fire was counted from an aligned instant. */
  lemma ArmedKey(db: Db, op: Op, r: string)
    requires Enabled(db, op) && Arms(db, Apply(db, op), r) && op.ManageOp?
    requires Representable(op.clock) && Representable(ArmedFrom(Apply(db, op).rules[r], op.clock))
    requires Inv(db)
    ensures var k := (r, Apply(db, op).rules[r].nextFireAt.value);
            && k in Apply(db, op).dispatches
            && (KeyMatches(Apply(db, op).dispatches, k) <==>
                  if k in db.dispatches then KeyMatches(db.dispatches, k) else Aligned(ArmedFrom(Apply(db, op).rules[r], op.clock)))
  {
    hide Inv, Apply, Enabled, ScheduleKey, Base, Representable, FirstFire, Stored, Aligned;
    var first := ArmedDispatch(db, op, r);
    StepKeepsInvariant(db, op);
    InvariantArmable(Apply(db, op), r);
    KeysAreInjective(r, Stored(first), r, first);
    var trigger := Apply(db, op).rules[r].trigger;
    FirstFireAligned(trigger.intervalSeconds.value, trigger.startAt, op.clock);
  }

  /** Of a slot whose timer was not received, only the key decides whether the rule is stuck there. */
  lemma StuckIffKeyDiffers(db: Db, r: string)
    requires r in db.rules && db.rules[r].Armable() && db.rules[r].nextFireAt.Some?
    requires !Received(db.triggers, db.rules[r].organizationId, TimerSource, ScheduleKey(r, db.rules[r].nextFireAt.value))
    requires Inv(db)
    ensures (r, db.rules[r].nextFireAt.value) in db.dispatches
    ensures Stuck(db, r) <==> !KeyMatches(db.dispatches, (r, db.rules[r].nextFireAt.value))
  {
    hide Inv, ScheduleKey, Received;
    InvariantArmable(db, r);
    if e :| e in ExecutionsOf(db.executions, r) && IsUnfinished(db, e, db.rules[r].nextFireAt.value) {
      ExecutedIsReceived(db, e, r);
    }
  }

  /** From a step that arms a rule at a slot whose timer was not received and with nothing left ahead, the unedited
      schedule is stuck if and only if the key of that slot's dispatch is not the one intake expects; for a slot that
      had no dispatch before, if and only if its first fire was counted from an instant that is not aligned. */
  lemma StuckIffMisaligned(states: seq<Db>, ops: seq<Op>, i: nat, j: nat, r: string)
    requires Run(states, ops) && i < j < |states| && Arms(states[i], states[i + 1], r) && ops[i].ManageOp?
    requires Clear(states[i + 1], r)
    requires !Received(states[i + 1].triggers, states[i + 1].rules[r].organizationId, TimerSource, ScheduleKey(r, states[i + 1].rules[r].nextFireAt.value))
    requires Representable(ops[i].clock) && Representable(ArmedFrom(states[i + 1].rules[r], ops[i].clock))
    requires r in states[j].rules && states[j].rules[r].revision == states[i + 1].rules[r].revision
    requires forall n :: i < n < j ==> FromJobs(states[n], ops[n], r)
    requires Inv(states[0])
    ensures var k := (r, states[i + 1].rules[r].nextFireAt.value);
            && k in states[i + 1].dispatches
            && (Stuck(states[j], r) <==> !KeyMatches(states[i + 1].dispatches, k))
            && (k in states[i].dispatches ==> (Stuck(states[j], r) <==> !KeyMatches(states[i].dispatches, k)))
            && (k !in states[i].dispatches ==> (Stuck(states[j], r) <==> !Aligned(ArmedFrom(states[i + 1].rules[r], ops[i].clock))))
  {
    hide Inv, Enabled, Apply, FromJobs, Base, Representable, Aligned, Stuck, Clear, KeyMatches, Received, ScheduleKey;
    InvariantOverRuns(states, ops, i);
    InvariantOverRuns(states, ops, i + 1);
    ArmedKey(states[i], ops[i], r);
    StuckIffKeyDiffers(states[i + 1], r);
    StuckIffStuckFirst(states, ops, i + 1, j, r);
  }

  /** A new rule has nothing left anywhere. */
  lemma NewRulesAreClear(db: Db, op: Op, r: string)
    requires Enabled(db, op) && Arms(db, Apply(db, op), r) && r !in db.rules
    requires Inv(db)
    ensures Clear(Apply(db, op), r) && (r, Apply(db, op).rules[r].nextFireAt.value) !in db.dispatches
    ensures !Received(Apply(db, op).triggers, Apply(db, op).rules[r].organizationId, TimerSource, ScheduleKey(r, Apply(db, op).rules[r].nextFireAt.value))
  {
    hide Inv, Apply, Enabled, ScheduleKey, Received, InRange, Slot, InitialNextFire;
    var after := Apply(db, op);
    var at, interval := after.rules[r].nextFireAt.value, IntervalOf(after.rules[r]);
    var first := ArmedDispatch(db, op, r);
    NothingOfNewRule(db, r);
    StepWrites(db, op);
    StepKeepsInvariant(db, op);
    InvariantArmable(after, r);
    forall t ensures !Received(after.triggers, after.rules[r].organizationId, TimerSource, ScheduleKey(r, t)) {
      NotReceivedOfNewRule(db, after.rules[r].organizationId, r, t);
    }
    forall j | 1 <= j ensures Slot(at, interval, j) != at {
      FirstSlot(at, interval);
      SlotsIncrease(at, interval, 0, j);
    }
  }

  lemma NothingOfNewRule(db: Db, r: string)
    requires r !in db.rules
    requires Inv(db)
    ensures forall d :: d in db.dispatches ==> d.0 != r
  {
    hide Ledger, DispatchKeys, TriggersOk, IntakeOk, Leases, ReceiptsOk, CommandsOk, NamesOk, RulesValid, SnapshotsValid,
         ExecutionRefers;
  }

  lemma NotReceivedOfNewRule(db: Db, organizationId: string, r: string, t: Time)
    requires r !in db.rules
    requires Inv(db)
    ensures !Received(db.triggers, organizationId, TimerSource, ScheduleKey(r, t))
  {
    hide Ledger, DispatchKeys, IntakeOk, Leases, ReceiptsOk, CommandsOk, NamesOk, RulesValid, SnapshotsValid,
         ExecutionRefers, ScheduleKey;
    if s :| s in db.triggers && IsReceipt(db.triggers[s], organizationId, TimerSource, ScheduleKey(r, t)) {
      assert TriggerOk(db.triggers[s]);
      KeysAreInjective(db.triggers[s].payload.ruleId, db.triggers[s].payload.scheduledFor, r, t);
    }
  }

  // ----- slots that can never run -----

  /** A slot whose dispatch carries another key is never received, whatever happens to its rule. */
  lemma {:induction false} MismatchedIsNeverReceived(states: seq<Db>, ops: seq<Op>, i: nat, j: nat, r: string, t: Time,
                                                     organizationId: string)
    requires Run(states, ops) && i <= j < |states| && (r, t) in states[i].dispatches && !KeyMatches(states[i].dispatches, (r, t))
    requires !Received(states[i].triggers, organizationId, TimerSource, ScheduleKey(r, t))
    requires forall n :: i <= n < j ==> FromJobs(states[n], ops[n], r)
    requires Inv(states[0])
    ensures !Received(states[j].triggers, organizationId, TimerSource, ScheduleKey(r, t))
    decreases j - i
  {
    hide Inv, Enabled, Apply, ScheduleKey, Received, Later;
    if i < j {
      MismatchedIsNeverReceived(states, ops, i, j - 1, r, t, organizationId);
      LaterOverRuns(states, ops, i, j - 1);
      KeyStays(states[i], states[j - 1], (r, t));
      if Received(states[j].triggers, organizationId, TimerSource, ScheduleKey(r, t)) {
        StepReceives(states[j - 1], ops[j - 1], organizationId, r, t);
      }
    }
  }

  /** A schedule newly armed from an instant that is not aligned stays at its first slot and never executes it. */
  lemma MisalignedScheduleNeverRuns(states: seq<Db>, ops: seq<Op>, i: nat, j: nat, r: string, e: string)
    requires Run(states, ops) && i < j < |states| && Arms(states[i], states[i + 1], r) && ops[i].ManageOp?
    requires (r, states[i + 1].rules[r].nextFireAt.value) !in states[i].dispatches
    requires !Received(states[i + 1].triggers, states[i + 1].rules[r].organizationId, TimerSource, ScheduleKey(r, states[i + 1].rules[r].nextFireAt.value))
    requires Representable(ops[i].clock) && Representable(ArmedFrom(states[i + 1].rules[r], ops[i].clock))
    requires !Aligned(ArmedFrom(states[i + 1].rules[r], ops[i].clock))
    requires r in states[j].rules && states[j].rules[r].revision == states[i + 1].rules[r].revision
    requires forall n :: i < n < j ==> FromJobs(states[n], ops[n], r)
    requires Inv(states[0])
    ensures states[j].rules[r].nextFireAt == states[i + 1].rules[r].nextFireAt
    ensures e in ExecutionsOf(states[j].executions, r) && IsTimerExecution(states[j], e) ==>
              SlotOf(states[j], e) != states[i + 1].rules[r].nextFireAt.value
  {
    hide Inv, Enabled, Apply, FromJobs, Base, Representable, Aligned, Stuck, KeyMatches, Received, ScheduleKey, Later;
    var at, organizationId := states[i + 1].rules[r].nextFireAt.value, states[i + 1].rules[r].organizationId;
    InvariantOverRuns(states, ops, i);
    InvariantOverRuns(states, ops, i + 1);
    InvariantOverRuns(states, ops, j);
    ArmedKey(states[i], ops[i], r);
    StuckIffKeyDiffers(states[i + 1], r);
    StuckSchedulesStay(states, ops, i + 1, j, r);
    MismatchedIsNeverReceived(states, ops, i + 1, j, r, at, organizationId);
    LaterOverRuns(states, ops, i + 1, j);
    SameOrganization(states[i + 1], states[j], r);
    if e in ExecutionsOf(states[j].executions, r) && IsTimerExecution(states[j], e) {
      ExecutedIsReceived(states[j], e, r);
    }
  }

  lemma SameOrganization(a: Db, b: Db, r: string)
    requires r in a.rules && Later(a, b)
    ensures r in b.rules && b.rules[r].organizationId == a.rules[r].organizationId
  {
    hide ExecutionsLater, AttemptsLater, ReceiptsLater, DispatchesLater, Kept;
    assert RuleLater(a.rules[r], b.rules[r]);
  }
}
