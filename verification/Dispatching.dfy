/** The life of a schedule dispatch over runs. */
module Dispatching {
  import opened Results
  import opened Schedule
  import opened Rules
  import opened Payloads
  import opened Targets
  import opened Keys
  import opened Tables
  import opened Transactions
  import opened Invariants
  import opened Preservation
  import opened Runs
  import opened Frames
  import opened History
  import opened Intakes
  import opened CommandLaws

  /** The moves a step can make on a dispatch: only marking enqueues, only replacing a schedule cancels, and a
      cancelled or new dispatch becomes pending only as the slot its rule is then armed at. */
  ghost predicate MayMove(op: Op, k: (string, Time), a: Option<DispatchState>, b: Option<DispatchState>, armedAt: Option<Time>) {
    || a == b
    || (a == Some(DispatchPending) && b == Some(Enqueued) && op.MarkEnqueuedOp? && op.slot == k)
    || (a == Some(DispatchPending) && b == Some(Cancelled) && (op.ManageOp? || op.CompleteOp?))
    || ((a == Some(Cancelled) || a == None) && b == Some(DispatchPending) && (op.ManageOp? || op.CompleteOp?) && armedAt == Some(k.1))
  }

  function StateOf(ds: Dispatches, k: (string, Time)): Option<DispatchState> {
    if k in ds then Some(ds[k].state) else None
  }

  function ArmedAt(rules: RuleTable, r: string): Option<Time> {
    if r in rules then rules[r].nextFireAt else None
  }

  lemma ReplacementMoves(ds: Dispatches, organizationId: string, ruleId: string, next: Option<Time>, k: (string, Time))
    ensures var a, b := StateOf(ds, k), StateOf(ReplacePendingSchedule(ds, organizationId, ruleId, next), k);
            || a == b
            || (a == Some(DispatchPending) && b == Some(Cancelled))
            || ((a == Some(Cancelled) || a == None) && b == Some(DispatchPending) && k.0 == ruleId && StoredOption(next) == Some(k.1))
  {
    hide ReplacePendingSchedule;
    DispatchAfter(ds, organizationId, ruleId, next, k);
  }

  lemma CommandMoves(db: Db, op: Op, k: (string, Time))
    requires op.ManageOp? && Enabled(db, op)
    requires Inv(db)
    ensures MayMove(op, k, StateOf(db.dispatches, k), StateOf(Apply(db, op).dispatches, k), ArmedAt(Apply(db, op).rules, k.0))
  {
    hide Inv, ReplacePendingSchedule, ChangedRule, ValidRequest, StateOf;
    if Commits(db, op) {
      var (rule, next) := ChangedRule(db.rules, op.request, op.clock, op.now, op.rowSeq).value;
      InvariantNames(db);
      ChangedRuleFacts(db.rules, op.request, op.clock, op.now, op.rowSeq);
      ReplacementMoves(db.dispatches, op.request.organizationId, op.request.ruleId, next, k);
    }
  }

  lemma AdvanceMoves(db: Db, ruleId: string, payload: Payload, now: Time, op: Op, k: (string, Time))
    requires AdvanceSchedule(db, ruleId, payload, now).Ok? && op.CompleteOp?
    ensures var after := AdvanceSchedule(db, ruleId, payload, now).value;
            MayMove(op, k, StateOf(db.dispatches, k), StateOf(after.dispatches, k), ArmedAt(after.rules, k.0))
  {
    hide PayloadJson, ReplacePendingSchedule, StateOf;
    var after := AdvanceSchedule(db, ruleId, payload, now).value;
    if after != db {
      var next := CheckedAddSeconds(db.rules[ruleId].nextFireAt.value, db.rules[ruleId].trigger.intervalSeconds.value);
      ReplacementMoves(db.dispatches, db.rules[ruleId].organizationId, ruleId, next, k);
    }
  }

  lemma CompletionMoves(db: Db, op: Op, k: (string, Time))
    requires op.CompleteOp? && Enabled(db, op)
    ensures MayMove(op, k, StateOf(db.dispatches, k), StateOf(Apply(db, op).dispatches, k), ArmedAt(Apply(db, op).rules, k.0))
  {
    hide AdvanceSchedule, StateOf, ArmedAt, Genuine;
    if HoldsLease(db.executions, op.claim, op.now) {
      var ended := EndAttempt(db, op.claim, if op.succeeded then Succeeded else Failed,
                              if op.succeeded then AttemptSucceeded else AttemptFailed, op.failure);
      if AdvanceSchedule(ended, op.claim.ruleId, op.claim.payload, op.now).Ok? {
        AdvanceMoves(ended, op.claim.ruleId, op.claim.payload, op.now, op, k);
      }
    }
  }

  lemma OtherMoves(db: Db, op: Op, k: (string, Time))
    requires !op.ManageOp? && !op.CompleteOp? && Enabled(db, op)
    ensures MayMove(op, k, StateOf(db.dispatches, k), StateOf(Apply(db, op).dispatches, k), ArmedAt(Apply(db, op).rules, k.0))
  {
    hide Apply, Enabled;
    StepWrites(db, op);
    if op.MarkEnqueuedOp? || op.MarkCancelledOp? || op.RecordFailureOp? {
      DispatchMoves(db, op, k);
    }
  }

  lemma DispatchMoves(db: Db, op: Op, k: (string, Time))
    requires op.MarkEnqueuedOp? || op.MarkCancelledOp? || op.RecordFailureOp?
    ensures MayMove(op, k, StateOf(db.dispatches, k), StateOf(Apply(db, op).dispatches, k), ArmedAt(Apply(db, op).rules, k.0))
  {
  }

  lemma StepMoves(db: Db, op: Op, k: (string, Time))
    requires Enabled(db, op)
    requires Inv(db)
    ensures MayMove(op, k, StateOf(db.dispatches, k), StateOf(Apply(db, op).dispatches, k), ArmedAt(Apply(db, op).rules, k.0))
  {
    hide Inv, Apply, Enabled, MayMove, StateOf, ArmedAt;
    if op.ManageOp? {
      CommandMoves(db, op, k);
    } else if op.CompleteOp? {
      CompletionMoves(db, op, k);
    } else {
      OtherMoves(db, op, k);
    }
  }

  /** A dispatch that was ever enqueued stays enqueued, with the organization and key it was created with. */
  lemma EnqueuedIsFinal(states: seq<Db>, ops: seq<Op>, i: nat, j: nat, k: (string, Time))
    requires Run(states, ops) && i <= j < |states| && k in states[i].dispatches
    requires Inv(states[0])
    ensures k in states[j].dispatches && DispatchLater(states[i].dispatches[k], states[j].dispatches[k])
  {
    hide Inv, Enabled, Apply, RulesLater, ExecutionsLater, AttemptsLater, ReceiptsLater;
    LaterOverRuns(states, ops, i, j);
  }

  /** A cancelled dispatch is never enqueued before its rule is armed at that very slot again. */
  lemma {:induction false} CancelledNeedsRearming(states: seq<Db>, ops: seq<Op>, i: nat, j: nat,
                                                  k: (string, Time)) returns (m: nat)
    requires Run(states, ops) && i <= j < |states|
    requires StateOf(states[i].dispatches, k) == Some(Cancelled) && StateOf(states[j].dispatches, k) != Some(Cancelled)
    requires Inv(states[0])
    ensures i < m <= j && StateOf(states[m - 1].dispatches, k) == Some(Cancelled)
    ensures StateOf(states[m].dispatches, k) == Some(DispatchPending) && ArmedAt(states[m].rules, k.0) == Some(k.1)
    decreases j
  {
    hide Inv, Enabled, Apply, StateOf, ArmedAt;
    if StateOf(states[j - 1].dispatches, k) == Some(Cancelled) {
      m := j;
      InvariantOverRuns(states, ops, j - 1);
      StepMoves(states[j - 1], ops[j - 1], k);
    } else {
      m := CancelledNeedsRearming(states, ops, i, j - 1, k);
    }
  }

  /** In a reachable state at most one dispatch of a rule is pending, and two dispatches never share a key. */
  lemma PendingIsUnique(db: Db, j: (string, Time), k: (string, Time))
    requires j in db.dispatches && k in db.dispatches
    requires Inv(db)
    ensures db.dispatches[j].state.DispatchPending? && db.dispatches[k].state.DispatchPending? && j.0 == k.0 ==> j == k
    ensures db.dispatches[j].idempotencyKey == db.dispatches[k].idempotencyKey ==> j == k
  {
    hide References, TriggersOk, IntakeOk, Leases, ReceiptsOk, CommandsOk, NamesOk, RulesValid, SnapshotsValid, ScheduleKey;
    if db.dispatches[j].idempotencyKey == db.dispatches[k].idempotencyKey {
      assert KeyOfSlot(j, db.dispatches[j].idempotencyKey) && KeyOfSlot(k, db.dispatches[k].idempotencyKey);
      var s :| Stored(s) == j.1 && db.dispatches[j].idempotencyKey == ScheduleKey(j.0, s);
      var t :| Stored(t) == k.1 && db.dispatches[k].idempotencyKey == ScheduleKey(k.0, t);
      KeysAreInjective(j.0, s, k.0, t);
    }
  }

  function EnqueuedSet(ds: Dispatches): set<(string, Time)> {
    set k | k in ds && ds[k].state.Enqueued?
  }

  /** How many of the first `n` steps recorded an enqueue, which is what flushes add up. */
  ghost function RecordedEnqueues(states: seq<Db>, ops: seq<Op>, n: nat): nat
    requires Run(states, ops) && n <= |ops|
  {
    if n == 0 then 0
    else RecordedEnqueues(states, ops, n - 1)
         + if ops[n - 1].MarkEnqueuedOp? && MarkEnqueued(states[n - 1].dispatches, ops[n - 1].slot, ops[n - 1].jobId).1 then 1 else 0
  }

  lemma StepEnqueues(db: Db, op: Op)
    requires Enabled(db, op)
    requires Inv(db)
    ensures |EnqueuedSet(Apply(db, op).dispatches)|
            == |EnqueuedSet(db.dispatches)|
               + if op.MarkEnqueuedOp? && MarkEnqueued(db.dispatches, op.slot, op.jobId).1 then 1 else 0
  {
    hide Inv, Apply, Enabled, RulesLater, ExecutionsLater, AttemptsLater, ReceiptsLater, Kept;
    StepIsLater(db, op);
    var a, b := EnqueuedSet(db.dispatches), EnqueuedSet(Apply(db, op).dispatches);
    forall k | k in a ensures k in b {
      assert DispatchLater(db.dispatches[k], Apply(db, op).dispatches[k]);
    }
    forall k | k in b && k !in a ensures op.MarkEnqueuedOp? && op.slot == k && k in db.dispatches && db.dispatches[k].state.DispatchPending? {
      StepMoves(db, op, k);
    }
    if op.MarkEnqueuedOp? && op.slot in db.dispatches && db.dispatches[op.slot].state.DispatchPending? {
      MarkedIsEnqueued(db, op);
      assert b == a + {op.slot};
    } else {
      assert b == a;
    }
  }

  lemma MarkedIsEnqueued(db: Db, op: Op)
    requires op.MarkEnqueuedOp? && op.slot in db.dispatches && db.dispatches[op.slot].state.DispatchPending?
    ensures op.slot in EnqueuedSet(Apply(db, op).dispatches)
  {
  }

  /** In every run, whatever interleaves with the flushes, the enqueues they report are exactly the dispatches
      that became enqueued. */
  lemma {:induction false} ReportedEnqueuesAreExact(states: seq<Db>, ops: seq<Op>, n: nat)
    requires Run(states, ops) && n <= |ops|
    requires Inv(states[0])
    ensures |EnqueuedSet(states[n].dispatches)| == |EnqueuedSet(states[0].dispatches)| + RecordedEnqueues(states, ops, n)
  {
    hide Inv, Apply, Enabled, EnqueuedSet;
    if n > 0 {
      ReportedEnqueuesAreExact(states, ops, n - 1);
      InvariantOverRuns(states, ops, n - 1);
      StepEnqueues(states[n - 1], ops[n - 1]);
    }
  }

  /** The payload a flush builds from an armed dispatch passes intake's key check exactly if the row that was there
      carries the right key, or, if there was none, if the armed instant is microsecond-aligned. */
  lemma PayloadPassesIffAligned(db: Db, organizationId: string, r: string, at: Time, triggerId: string, executionId: string)
    ensures var k := (r, Stored(at));
            && k in ReplacePendingSchedule(db.dispatches, organizationId, r, Some(at))
            && var job := JobOf(k, ReplacePendingSchedule(db.dispatches, organizationId, r, Some(at))[k]);
               var reply := ReceiveTimer(db, job.organizationId, job.ruleId, job.idempotencyKey, job.scheduledFor, triggerId, executionId).reply;
               reply != Err(InvalidRequest)
               <==> if k in db.dispatches then db.dispatches[k].idempotencyKey == ScheduleKey(r, Stored(at)) else Aligned(at)
  {
    hide Received, ScheduleKey, TimerAccepted;
    KeysAreInjective(r, at, r, Stored(at));
  }
}
