/** Which tables each transaction can write. */
module Frames {
  import opened Results
  import opened Text
  import opened Schedule
  import opened Rules
  import opened Payloads
  import opened Targets
  import opened Keys
  import opened Tables
  import opened Transactions
  import opened Preservation
  import opened Runs

  /** Every table an operation does not name is as it was, and one-row updates add no row. */
  ghost predicate Writes(op: Op, a: Db, b: Db) {
    match op
    case ManageOp(_, _, _, _, _) => b == a.(commands := b.commands, rules := b.rules, dispatches := b.dispatches)
    case ReceiveEventOp(_, _, _) => b == a.(triggers := b.triggers, executions := b.executions, receipts := b.receipts)
    case ReceiveTimerOp(_, _, _, _, _, _) => b == a.(triggers := b.triggers, executions := b.executions, receipts := b.receipts)
    case ClaimOp(_, _, _, _, _, _) => b == a.(executions := b.executions, attempts := b.attempts)
    case ActionStatusOp(_, _) => b == a.(receipts := b.receipts) && b.receipts.Keys == a.receipts.Keys
    case CompleteActionOp(_, _, _, _, _) => b == a.(receipts := b.receipts) && b.receipts.Keys == a.receipts.Keys
    case ReleaseOp(_, _, _) => b == a.(executions := b.executions, attempts := b.attempts)
    case CompleteOp(_, _, _, _) =>
      b == a.(executions := b.executions, attempts := b.attempts, rules := b.rules, dispatches := b.dispatches)
    case MarkEnqueuedOp(_, _) => b == a.(dispatches := b.dispatches) && b.dispatches.Keys == a.dispatches.Keys
    case MarkCancelledOp(_, _) => b == a.(dispatches := b.dispatches) && b.dispatches.Keys == a.dispatches.Keys
    case RecordFailureOp(_, _) => b == a.(dispatches := b.dispatches) && b.dispatches.Keys == a.dispatches.Keys
  }

  lemma CommandFrame(db: Db, scope: Scope, request: Request, clock: Time, now: Time, rowSeq: int)
    ensures var after := HandleCommand(db, scope, request, clock, now, rowSeq).db;
            after == db.(commands := after.commands, rules := after.rules, dispatches := after.dispatches)
  {
    hide ChangedRule, ReplacePendingSchedule, ValidRequest;
  }

  lemma EventFrame(db: Db, event: Event, triggerId: string, matched: seq<(string, string)>)
    requires MatchedRows(db, event, matched)
    ensures var after := ReceiveEvent(db, event, triggerId, matched).db;
            after == db.(triggers := after.triggers, executions := after.executions, receipts := after.receipts)
  {
    hide EventMatches, Received, InsertExecution;
    MatchedFacts(db, event, matched);
    InsertExecutionsFrame(db.(triggers := db.triggers[triggerId := EventReceipt(event)]), event.organizationId, triggerId, matched, |matched|);
  }

  lemma TimerFrame(db: Db, organizationId: string, ruleId: string, dedupeKey: Key, scheduledFor: Time, triggerId: string,
                   executionId: string)
    ensures var after := ReceiveTimer(db, organizationId, ruleId, dedupeKey, scheduledFor, triggerId, executionId).db;
            after == db.(triggers := after.triggers, executions := after.executions, receipts := after.receipts)
  {
    hide Received, ScheduleKey, TimerAccepted, NewReceipts;
  }

  lemma ClaimFrame(db: Db, op: Op)
    requires op.ClaimOp? && Enabled(db, op)
    ensures Writes(op, db, Apply(db, op))
  {
    hide Distinct, ClaimOne;
    ClaimAllFrame(db, op.picked, |op.picked|, op.worker, op.now + op.leaseSeconds * SECOND);
  }

  /** Claiming one claimable row. */
  lemma ClaimsOne(db: Db, op: Op, e: string)
    requires op.ClaimOp? && op.picked == [e] && op.limit == 1 && e in db.executions && db.executions[e].triggerId in db.triggers
    requires Claimable(db.executions[e], op.organizationId, op.now) && db.executions[e].attempts != I32_MAX
    ensures Enabled(db, op)
    ensures ClaimExecutions(db, op.organizationId, op.worker, op.picked, op.limit, op.leaseSeconds, op.now)
            == Tx(ClaimOne(db, e, op.worker, op.now + op.leaseSeconds * SECOND), Ok([ClaimOf(db, e, op.worker)]))
    ensures Apply(db, op) == ClaimOne(db, e, op.worker, op.now + op.leaseSeconds * SECOND)
  {
    hide ClaimOne, HandleCommand, ReceiveEvent, ReceiveTimer, ReleaseExecution, CompleteExecution, MatchedRows;
    assert ClaimAll(db, [e], 0, op.worker, op.now + op.leaseSeconds * SECOND) == db;
    assert forall f :: f in [e] ==> f == e;
    assert ClaimsOf(db, [e], op.worker) == [ClaimOf(db, e, op.worker)];
  }

  lemma AdvanceFrame(db: Db, ruleId: string, payload: Payload, now: Time)
    requires AdvanceSchedule(db, ruleId, payload, now).Ok?
    ensures var after := AdvanceSchedule(db, ruleId, payload, now).value;
            after == db.(rules := after.rules, dispatches := after.dispatches)
  {
    hide PayloadJson, ReplacePendingSchedule;
  }

  lemma EndFrame(db: Db, claim: Claim, status: ExecutionStatus, attemptStatus: AttemptStatus, failure: Option<string>)
    requires claim.executionId in db.executions
    ensures var ended := EndAttempt(db, claim, status, attemptStatus, failure);
            ended == db.(executions := ended.executions, attempts := ended.attempts) && ended.executions.Keys == db.executions.Keys
  {
  }

  lemma CompleteFrame(db: Db, claim: Claim, succeeded: bool, failure: Option<string>, now: Time)
    ensures var after := CompleteExecution(db, claim, succeeded, failure, now).db;
            && after == db.(executions := after.executions, attempts := after.attempts, rules := after.rules, dispatches := after.dispatches)
            && after.executions.Keys == db.executions.Keys
  {
    hide AdvanceSchedule, EndAttempt;
    if HoldsLease(db.executions, claim, now) {
      var status, attemptStatus := if succeeded then Succeeded else Failed, if succeeded then AttemptSucceeded else AttemptFailed;
      var ended := EndAttempt(db, claim, status, attemptStatus, failure);
      EndFrame(db, claim, status, attemptStatus, failure);
      if AdvanceSchedule(ended, claim.ruleId, claim.payload, now).Ok? {
        AdvanceFrame(ended, claim.ruleId, claim.payload, now);
      }
    }
  }

  lemma ReleaseFrame(db: Db, claim: Claim, reason: string, now: Time)
    ensures var after := ReleaseExecution(db, claim, reason, now).db;
            after == db.(executions := after.executions, attempts := after.attempts) && after.executions.Keys == db.executions.Keys
  {
  }

  lemma StepWrites(db: Db, op: Op)
    requires Enabled(db, op)
    ensures Writes(op, db, Apply(db, op))
  {
    hide HandleCommand, ReceiveEvent, ReceiveTimer, CompleteExecution, ReleaseExecution, MatchedRows, PickedRows,
         ClaimExecutions, Genuine;
    match op
    case ManageOp(scope, request, clock, now, rowSeq) => CommandFrame(db, scope, request, clock, now, rowSeq);
    case ReceiveEventOp(event, triggerId, matched) => EventFrame(db, event, triggerId, matched);
    case ReceiveTimerOp(organizationId, ruleId, dedupeKey, scheduledFor, triggerId, executionId) =>
      TimerFrame(db, organizationId, ruleId, dedupeKey, scheduledFor, triggerId, executionId);
    case ClaimOp(_, _, _, _, _, _) => ClaimFrame(db, op);
    case CompleteOp(claim, succeeded, failure, now) => CompleteFrame(db, claim, succeeded, failure, now);
    case ReleaseOp(claim, reason, now) => ReleaseFrame(db, claim, reason, now);
    case _ => RowUpdateFrame(db, op);
  }

  lemma RowUpdateFrame(db: Db, op: Op)
    requires op.ActionStatusOp? || op.CompleteActionOp? || op.MarkEnqueuedOp? || op.MarkCancelledOp? || op.RecordFailureOp?
    ensures Writes(op, db, Apply(db, op))
  {
    hide HandleCommand, ReceiveEvent, ReceiveTimer, ClaimExecutions, ReleaseExecution, CompleteExecution, MatchedRows,
         PickedRows, Genuine;
  }

  /** Only an intake makes executions. */
  lemma OnlyIntakeCreates(db: Db, op: Op)
    requires !op.ReceiveEventOp? && !op.ReceiveTimerOp? && Enabled(db, op)
    ensures Apply(db, op).executions.Keys == db.executions.Keys && Apply(db, op).triggers == db.triggers
  {
    hide Apply, Enabled;
    StepWrites(db, op);
    match op
    case ClaimOp(_, _, _, _, _, _) => ClaimKeepsExecutions(db, op);
    case CompleteOp(_, _, _, _) => EndKeepsExecutions(db, op);
    case ReleaseOp(_, _, _) => EndKeepsExecutions(db, op);
    case _ =>
  }

  lemma ClaimKeepsExecutions(db: Db, op: Op)
    requires op.ClaimOp? && Enabled(db, op)
    ensures Apply(db, op).executions.Keys == db.executions.Keys
  {
    hide Distinct, ClaimAll;
  }

  lemma EndKeepsExecutions(db: Db, op: Op)
    requires (op.CompleteOp? || op.ReleaseOp?) && Enabled(db, op)
    ensures Apply(db, op).executions.Keys == db.executions.Keys
  {
    hide CompleteExecution, ReleaseExecution, Genuine;
    if op.CompleteOp? {
      CompleteFrame(db, op.claim, op.succeeded, op.failure, op.now);
    } else {
      ReleaseFrame(db, op.claim, op.reason, op.now);
    }
  }
}
