/** Runs of the database: any interleaving of transactions, each with any clock and any parameters. */
module Runs {
  import opened Results
  import opened Text
  import opened Schedule
  import opened Rules
  import opened Payloads
  import opened Targets
  import opened Keys
  import opened Tables
  import opened Transactions
  import opened Invariants
  import opened Preservation

  datatype Op =
    | ManageOp(scope: Scope, request: Request, clock: Time, now: Time, rowSeq: int)
    | ReceiveEventOp(event: Event, triggerId: string, matched: seq<(string, string)>)
    | ReceiveTimerOp(organizationId: string, ruleId: string, dedupeKey: Key, scheduledFor: Time,
                     triggerId: string, executionId: string)
    | ClaimOp(organizationId: string, worker: string, picked: seq<string>, limit: int, leaseSeconds: int, now: Time)
    | ActionStatusOp(executionId: string, index: int)
    | CompleteActionOp(executionId: string, index: int, succeeded: bool, response: Option<string>, failure: Option<string>)
    | ReleaseOp(claim: Claim, reason: string, now: Time)
    | CompleteOp(claim: Claim, succeeded: bool, failure: Option<string>, now: Time)
    | MarkEnqueuedOp(slot: (string, Time), jobId: string)
    | MarkCancelledOp(slot: (string, Time), jobId: string)
    | RecordFailureOp(slot: (string, Time), reason: string)

  /** A claim that `claim_executions` handed out: it repeats what the execution and its attempt row say. */
  ghost predicate Genuine(db: Db, c: Claim) {
    && c.executionId in db.executions
    && var e := db.executions[c.executionId];
       && e.ruleId == c.ruleId && e.triggerId == c.triggerId && e.actions == c.actions
       && e.triggerId in db.triggers && db.triggers[e.triggerId].payload == c.payload
       && 1 <= c.attempt <= e.attempts
  }

  /** What a step may assume: new version 4 UUIDs and sequence values are fresh, queries return rows that
      match, and only genuine claims are completed or released. */
  ghost predicate Enabled(db: Db, op: Op) {
    match op
    case ManageOp(scope, request, _, _, rowSeq) =>
      scope.operation == OperationOf(request) && 0 < rowSeq <= I64_MAX && forall r :: r in db.rules ==> db.rules[r].rowSeq != rowSeq
    case ReceiveEventOp(event, triggerId, matched) => triggerId !in db.triggers && MatchedRows(db, event, matched)
    case ReceiveTimerOp(_, _, _, _, triggerId, executionId) => triggerId !in db.triggers && executionId !in db.executions
    case ClaimOp(organizationId, _, picked, limit, _, now) => PickedRows(db, organizationId, picked, limit, now)
    case ReleaseOp(claim, _, _) => Genuine(db, claim)
    case CompleteOp(claim, _, _, _) => Genuine(db, claim)
    case _ => true
  }

  ghost function Apply(db: Db, op: Op): Db
    requires Enabled(db, op)
  {
    match op
    case ManageOp(scope, request, clock, now, rowSeq) => HandleCommand(db, scope, request, clock, now, rowSeq).db
    case ReceiveEventOp(event, triggerId, matched) => ReceiveEvent(db, event, triggerId, matched).db
    case ReceiveTimerOp(organizationId, ruleId, dedupeKey, scheduledFor, triggerId, executionId) =>
      ReceiveTimer(db, organizationId, ruleId, dedupeKey, scheduledFor, triggerId, executionId).db
    case ClaimOp(organizationId, worker, picked, limit, leaseSeconds, now) =>
      ClaimExecutions(db, organizationId, worker, picked, limit, leaseSeconds, now).db
    case ActionStatusOp(executionId, index) => ActionStatus(db, executionId, index).db
    case CompleteActionOp(executionId, index, succeeded, response, failure) =>
      CompleteAction(db, executionId, index, succeeded, response, failure)
    case ReleaseOp(claim, reason, now) => ReleaseExecution(db, claim, reason, now).db
    case CompleteOp(claim, succeeded, failure, now) => CompleteExecution(db, claim, succeeded, failure, now).db
    case MarkEnqueuedOp(slot, jobId) => db.(dispatches := MarkEnqueued(db.dispatches, slot, jobId).0)
    case MarkCancelledOp(slot, jobId) => db.(dispatches := MarkCancelledEnqueue(db.dispatches, slot, jobId))
    case RecordFailureOp(slot, reason) => db.(dispatches := RecordDispatchFailure(db.dispatches, slot, reason))
  }

  lemma StepKeepsInvariant(db: Db, op: Op)
    requires Enabled(db, op)
    requires Inv(db)
    ensures Inv(Apply(db, op))
  {
    hide Inv, HandleCommand, ReceiveEvent, ReceiveTimer, CompleteExecution, EndAttempt, ClaimAll, MatchedRows, Distinct;
    match op
    case ManageOp(scope, request, clock, now, rowSeq) => ManagementKeepsInvariant(db, scope, request, clock, now, rowSeq);
    case ReceiveEventOp(event, triggerId, matched) => EventKeepsInvariant(db, event, triggerId, matched);
    case ReceiveTimerOp(organizationId, ruleId, dedupeKey, scheduledFor, triggerId, executionId) =>
      TimerKeepsInvariant(db, organizationId, ruleId, dedupeKey, scheduledFor, triggerId, executionId);
    case ClaimOp(organizationId, worker, picked, limit, leaseSeconds, now) =>
      ClaimAllKeepsInvariant(db, picked, |picked|, worker, now + leaseSeconds * SECOND);
    case ActionStatusOp(executionId, index) => ReceiptOpKeepsInvariant(db, op, (executionId, index));
    case CompleteActionOp(executionId, index, succeeded, response, failure) => ReceiptOpKeepsInvariant(db, op, (executionId, index));
    case ReleaseOp(claim, reason, now) => ReleaseKeepsInvariant(db, claim, reason, now);
    case CompleteOp(claim, succeeded, failure, now) => CompleteKeepsInvariant(db, claim, succeeded, failure, now);
    case MarkEnqueuedOp(slot, jobId) => DispatchOpKeepsInvariant(db, op, slot);
    case MarkCancelledOp(slot, jobId) => DispatchOpKeepsInvariant(db, op, slot);
    case RecordFailureOp(slot, reason) => DispatchOpKeepsInvariant(db, op, slot);
  }

  lemma ReleaseKeepsInvariant(db: Db, claim: Claim, reason: string, now: Time)
    requires Inv(db)
    ensures Inv(ReleaseExecution(db, claim, reason, now).db)
  {
    hide Inv;
    if HoldsLease(db.executions, claim, now) {
      EndAttemptKeepsInvariant(db, claim, Pending, Some(reason), now);
    }
  }

  lemma ReceiptOpKeepsInvariant(db: Db, op: Op, k: (string, int))
    requires (op.ActionStatusOp? && k == (op.executionId, op.index)) || (op.CompleteActionOp? && k == (op.executionId, op.index))
    requires Inv(db)
    ensures Inv(Apply(db, op))
  {
    hide Inv;
    if k in db.receipts {
      var r := Apply(db, op).receipts[k];
      ReceiptUpdateKeepsInvariant(db, k, r);
    }
  }

  lemma DispatchOpKeepsInvariant(db: Db, op: Op, slot: (string, Time))
    requires (op.MarkEnqueuedOp? && op.slot == slot) || (op.MarkCancelledOp? && op.slot == slot) || (op.RecordFailureOp? && op.slot == slot)
    requires Inv(db)
    ensures Inv(Apply(db, op))
  {
    hide Inv;
    if slot in db.dispatches {
      var d := Apply(db, op).dispatches[slot];
      assert Apply(db, op).dispatches == db.dispatches[slot := d];
      DispatchUpdateKeepsInvariant(db, slot, d);
    }
  }

  /** `states[i + 1]` is `states[i]` after `ops[i]`. */
  ghost predicate Run(states: seq<Db>, ops: seq<Op>) {
    && |states| == |ops| + 1
    && forall i :: 0 <= i < |ops| ==> Enabled(states[i], ops[i]) && states[i + 1] == Apply(states[i], ops[i])
  }

  lemma EmptyDatabase()
    ensures Inv(EMPTY)
  {
  }

  /** The invariant holds in every state of every run; runs from the empty database are among them. */
  lemma {:induction false} InvariantOverRuns(states: seq<Db>, ops: seq<Op>, i: nat)
    requires Run(states, ops) && i < |states| && (states[0] == EMPTY || Inv(states[0]))
    ensures Inv(states[i])
  {
    hide Inv, Enabled, Apply;
    if i == 0 {
      EmptyDatabase();
    } else {
      InvariantOverRuns(states, ops, i - 1);
      StepKeepsInvariant(states[i - 1], ops[i - 1]);
    }
  }
}
