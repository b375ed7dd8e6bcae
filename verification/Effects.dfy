/** What one transaction can do to one receipt and to one execution. */
module Effects {
  import opened Results
  import opened Schedule
  import opened Rules
  import opened Payloads
  import opened Targets
  import opened Keys
  import opened Tables
  import opened Transactions
  import opened Invariants
  import opened Preservation
  import opened Runs
  import opened Frames
  import opened History
  import opened Intakes

  function RowAt<K, V>(m: map<K, V>, k: K): Option<V> {
    if k in m then Some(m[k]) else None
  }

  /** Nothing was heard for this action yet. */
  predicate IsUntried(r: ActionReceipt) {
    r.status.ActionPending? && r.attempts == 0 && r.response.None? && r.lastFailure.None?
  }

  /** What a step makes of a receipt that is there: reading its action's status counts an attempt, recording its
      action's outcome writes that, and nothing else touches it. */
  function MovedReceipt(op: Op, k: (string, int), r: ActionReceipt): ActionReceipt {
    if op.CompleteActionOp? && k == (op.executionId, op.index) then
      r.(status := if op.succeeded then ActionSucceeded else ActionFailed, response := op.response, lastFailure := op.failure)
    else if op.ActionStatusOp? && k == (op.executionId, op.index) then r.(attempts := r.attempts + 1)
    else r
  }

  /** A receipt is created by an intake, untried; after that only its reading and its recording change it. */
  ghost predicate ReceiptMoves(op: Op, k: (string, int), a: Option<ActionReceipt>, b: Option<ActionReceipt>) {
    || (a.None? && b.None?)
    || (a.None? && b.Some? && IsUntried(b.value) && (op.ReceiveEventOp? || op.ReceiveTimerOp?))
    || (a.Some? && b.Some? && b.value == MovedReceipt(op, k, a.value))
  }

  /** An execution is created pending by an intake, claimed unless it is terminal, and ended by the claim that
      holds its lease; nothing else changes it. */
  ghost predicate ExecutionMoves(op: Op, e: string, a: Option<Execution>, b: Option<Execution>) {
    || a == b
    || (a.None? && b.Some? && b.value.status.Pending? && b.value.attempts == 0 && (op.ReceiveEventOp? || op.ReceiveTimerOp?))
    || (a.Some? && b.Some? && op.ClaimOp? && e in op.picked && !a.value.Terminal()
          && b.value == ClaimedRow(a.value, op.worker, op.now + op.leaseSeconds * SECOND))
    || (a.Some? && b.Some? && (op.ReleaseOp? || op.CompleteOp?) && op.claim.executionId == e
          && IsLeasedTo(a.value, op.claim, op.now) && SameIdentity(a.value, b.value)
          && b.value.attempts == a.value.attempts && b.value.status == EndStatus(op))
  }

  function EndStatus(op: Op): ExecutionStatus
    requires op.ReleaseOp? || op.CompleteOp?
  {
    if op.ReleaseOp? then Pending else if op.succeeded then Succeeded else Failed
  }

  lemma InsertMovesReceipt(db: Db, organizationId: string, ruleId: string, triggerId: string, actions: seq<Action>,
                           executionId: string, k: (string, int))
    requires k in db.receipts ==> k.0 != executionId
    ensures var a, b := RowAt(db.receipts, k), RowAt(InsertExecution(db, organizationId, ruleId, triggerId, actions, executionId).receipts, k);
            a == b || (a.None? && b.Some? && IsUntried(b.value) && k.0 == executionId)
  {
    hide ActionKey;
    NewReceiptsContents(executionId, actions, k);
  }

  lemma {:induction false} InsertsMoveReceipt(db: Db, organizationId: string, triggerId: string,
                                              matched: seq<(string, string)>, n: nat, k: (string, int))
    requires n <= |matched| && FreshRows(db, matched) && (k in db.receipts ==> k.0 in db.executions)
    ensures var after := InsertExecutions(db, organizationId, triggerId, matched, n);
            var a, b := RowAt(db.receipts, k), RowAt(after.receipts, k);
            || a == b
            || (a.None? && b.Some? && IsUntried(b.value) && exists i :: 0 <= i < n && matched[i].1 == k.0)
  {
    hide InsertExecution, RowAt;
    if n > 0 {
      var before := InsertExecutions(db, organizationId, triggerId, matched, n - 1);
      InsertsMoveReceipt(db, organizationId, triggerId, matched, n - 1, k);
      InsertExecutionsFrame(db, organizationId, triggerId, matched, n - 1);
      NoReceiptOfNext(db, before, matched, n - 1, k);
      InsertMovesReceipt(before, organizationId, matched[n - 1].0, triggerId, db.rules[matched[n - 1].0].actions, matched[n - 1].1, k);
    }
  }

  lemma NoReceiptOfNext(db: Db, before: Db, matched: seq<(string, string)>, n: nat, k: (string, int))
    requires n < |matched| && FreshRows(db, matched) && (k in db.receipts ==> k.0 in db.executions)
    requires RowAt(before.receipts, k) == RowAt(db.receipts, k) || exists i :: 0 <= i < n && matched[i].1 == k.0
    ensures k in before.receipts ==> k.0 != matched[n].1
  {
  }

  lemma EventMovesReceipt(db: Db, op: Op, k: (string, int))
    requires op.ReceiveEventOp? && Enabled(db, op) && ReceiptsOk(db.executions, db.receipts)
    ensures ReceiptMoves(op, k, RowAt(db.receipts, k), RowAt(Apply(db, op).receipts, k))
  {
    hide EventMatches, Received, InsertExecution;
    MatchedFacts(db, op.event, op.matched);
    var received := db.(triggers := db.triggers[op.triggerId := EventReceipt(op.event)]);
    InsertsMoveReceipt(received, op.event.organizationId, op.triggerId, op.matched, |op.matched|, k);
  }

  lemma TimerInserts(db: Db, op: Op)
    requires op.ReceiveTimerOp?
    ensures var after := ReceiveTimer(db, op.organizationId, op.ruleId, op.dedupeKey, op.scheduledFor, op.triggerId, op.executionId).db;
            || (after.executions == db.executions && after.receipts == db.receipts)
            || (op.ruleId in db.rules
                && after == InsertExecution(db.(triggers := after.triggers), op.organizationId, op.ruleId, op.triggerId,
                                            db.rules[op.ruleId].actions, op.executionId))
  {
    hide Received, ScheduleKey, NewReceipts;
  }

  lemma TimerMovesReceipt(db: Db, op: Op, k: (string, int))
    requires op.ReceiveTimerOp? && Enabled(db, op) && ReceiptsOk(db.executions, db.receipts)
    ensures ReceiptMoves(op, k, RowAt(db.receipts, k), RowAt(Apply(db, op).receipts, k))
  {
    hide ReceiveTimer, InsertExecution, HandleCommand, ReceiveEvent, ClaimExecutions, ReleaseExecution, CompleteExecution,
         MatchedRows, PickedRows, ReceiptFor;
    TimerInserts(db, op);
    var after := Apply(db, op);
    if op.ruleId in db.rules {
      InsertMovesReceipt(db.(triggers := after.triggers), op.organizationId, op.ruleId, op.triggerId, db.rules[op.ruleId].actions, op.executionId, k);
    }
  }

  lemma StepMovesReceipt(db: Db, op: Op, k: (string, int))
    requires Enabled(db, op)
    requires Inv(db)
    ensures ReceiptMoves(op, k, RowAt(db.receipts, k), RowAt(Apply(db, op).receipts, k))
  {
    hide Inv, Apply, Enabled, ReceiptsOk;
    InvariantReceipts(db);
    StepWrites(db, op);
    match op
    case ReceiveEventOp(_, _, _) => EventMovesReceipt(db, op, k);
    case ReceiveTimerOp(_, _, _, _, _, _) => TimerMovesReceipt(db, op, k);
    case ActionStatusOp(_, _) => WorkerMovesReceipt(db, op, k);
    case CompleteActionOp(_, _, _, _, _) => WorkerMovesReceipt(db, op, k);
    case _ =>
  }

  lemma ReadingMoves(db: Db, executionId: string, index: int, k: (string, int))
    ensures var after := ActionStatus(db, executionId, index).db.receipts;
            && (k in after <==> k in db.receipts)
            && (k in after ==> after[k] == MovedReceipt(ActionStatusOp(executionId, index), k, db.receipts[k]))
  {
  }

  lemma RecordingMoves(db: Db, executionId: string, index: int, succeeded: bool, response: Option<string>,
                            failure: Option<string>, k: (string, int))
    ensures var after := CompleteAction(db, executionId, index, succeeded, response, failure).receipts;
            && (k in after <==> k in db.receipts)
            && (k in after ==> after[k] == MovedReceipt(CompleteActionOp(executionId, index, succeeded, response, failure), k, db.receipts[k]))
  {
  }

  lemma WorkerMovesReceipt(db: Db, op: Op, k: (string, int))
    requires op.ActionStatusOp? || op.CompleteActionOp?
    ensures ReceiptMoves(op, k, RowAt(db.receipts, k), RowAt(Apply(db, op).receipts, k))
  {
    hide HandleCommand, ReceiveEvent, ReceiveTimer, ClaimExecutions, ReleaseExecution, CompleteExecution, MatchedRows,
         PickedRows, Genuine, ActionStatus, CompleteAction, MarkEnqueued, MarkCancelledEnqueue, RecordDispatchFailure, RowAt;
    RowsAt(db.receipts, Apply(db, op).receipts, k);
    if op.ActionStatusOp? {
      ReadingMoves(db, op.executionId, op.index, k);
    } else {
      RecordingMoves(db, op.executionId, op.index, op.succeeded, op.response, op.failure, k);
    }
  }

  lemma RowsAt(m: Receipts, m': Receipts, k: (string, int))
    ensures RowAt(m, k) == (if k in m then Some(m[k]) else None) && RowAt(m', k) == if k in m' then Some(m'[k]) else None
  {
  }

  lemma ReleaseMovesExecution(db: Db, op: Op, e: string)
    requires op.ReleaseOp? && Enabled(db, op)
    ensures ExecutionMoves(op, e, RowAt(db.executions, e), RowAt(Apply(db, op).executions, e))
  {
  }

  lemma EndMovesExecution(db: Db, op: Op, e: string, attemptStatus: AttemptStatus, failure: Option<string>)
    requires (op.ReleaseOp? || op.CompleteOp?) && op.claim.executionId in db.executions
    ensures var ended := EndAttempt(db, op.claim, EndStatus(op), attemptStatus, failure);
            (HoldsLease(db.executions, op.claim, op.now) ==> ExecutionMoves(op, e, RowAt(db.executions, e), RowAt(ended.executions, e)))
  {
  }

  lemma CompletionMovesExecution(db: Db, op: Op, e: string)
    requires op.CompleteOp? && Enabled(db, op)
    ensures ExecutionMoves(op, e, RowAt(db.executions, e), RowAt(Apply(db, op).executions, e))
  {
    hide AdvanceSchedule, HoldsLease, EndAttempt;
    var claim := op.claim;
    var ended := EndAttempt(db, claim, EndStatus(op), if op.succeeded then AttemptSucceeded else AttemptFailed, op.failure);
    if AdvanceSchedule(ended, claim.ruleId, claim.payload, op.now).Ok? {
      AdvanceFrame(ended, claim.ruleId, claim.payload, op.now);
    }
    EndMovesExecution(db, op, e, if op.succeeded then AttemptSucceeded else AttemptFailed, op.failure);
  }

  lemma ClaimMovesExecution(db: Db, op: Op, e: string)
    requires op.ClaimOp? && Enabled(db, op)
    ensures ExecutionMoves(op, e, RowAt(db.executions, e), RowAt(Apply(db, op).executions, e))
  {
    hide ClaimOne;
    var leaseUntil := op.now + op.leaseSeconds * SECOND;
    if e in op.picked {
      var i :| 0 <= i < |op.picked| && op.picked[i] == e;
      ClaimedEach(db, op.picked, |op.picked|, op.worker, leaseUntil, i);
    } else if e in db.executions {
      ClaimedNothingElse(db, op.picked, |op.picked|, op.worker, leaseUntil, e);
    } else {
      ClaimAllFrame(db, op.picked, |op.picked|, op.worker, leaseUntil);
    }
  }

  lemma EventMovesExecution(db: Db, op: Op, e: string)
    requires op.ReceiveEventOp? && Enabled(db, op)
    ensures ExecutionMoves(op, e, RowAt(db.executions, e), RowAt(Apply(db, op).executions, e))
  {
    hide EventMatches, Received, InsertExecution;
    var event := op.event;
    MatchedFacts(db, event, op.matched);
    var received := db.(triggers := db.triggers[op.triggerId := EventReceipt(event)]);
    if i :| 0 <= i < |op.matched| && op.matched[i].1 == e {
      InsertedRow(received, event.organizationId, op.triggerId, op.matched, |op.matched|, i);
    } else {
      InsertedNothingElse(received, event.organizationId, op.triggerId, op.matched, |op.matched|, e);
    }
  }

  lemma StepMovesExecution(db: Db, op: Op, e: string)
    requires Enabled(db, op)
    requires Inv(db)
    ensures ExecutionMoves(op, e, RowAt(db.executions, e), RowAt(Apply(db, op).executions, e))
  {
    hide Inv, Apply, Enabled, HoldsLease;
    StepWrites(db, op);
    match op
    case ReceiveEventOp(_, _, _) => EventMovesExecution(db, op, e);
    case ReceiveTimerOp(_, _, _, _, _, _) => TimerMovesExecution(db, op, e);
    case ClaimOp(_, _, _, _, _, _) => ClaimMovesExecution(db, op, e);
    case CompleteOp(claim, _, _, _) => CompletionMovesExecution(db, op, e);
    case ReleaseOp(_, _, _) => ReleaseMovesExecution(db, op, e);
    case _ =>
  }

  lemma TimerMovesExecution(db: Db, op: Op, e: string)
    requires op.ReceiveTimerOp? && Enabled(db, op)
    ensures ExecutionMoves(op, e, RowAt(db.executions, e), RowAt(Apply(db, op).executions, e))
  {
    hide HandleCommand, ReceiveEvent, ReceiveTimer, ClaimExecutions, ReleaseExecution, CompleteExecution, MatchedRows,
         PickedRows, Genuine, TimerAccepted;
    TimerTables(db, op.organizationId, op.ruleId, op.dedupeKey, op.scheduledFor, op.triggerId, op.executionId);
  }

  /** A completion ends its execution with the status it names, or changes nothing. */
  lemma CompletedStatus(db: Db, claim: Claim, succeeded: bool, failure: Option<string>, now: Time)
    requires Genuine(db, claim)
    ensures var tx := CompleteExecution(db, claim, succeeded, failure, now);
            if tx.reply.Ok? then
              && claim.executionId in tx.db.executions
              && tx.db.executions[claim.executionId].status == (if succeeded then Succeeded else Failed)
              && tx.db.executions[claim.executionId].lastFailure == failure
            else tx.db == db
  {
    hide AdvanceSchedule;
    var ended := EndAttempt(db, claim, if succeeded then Succeeded else Failed, if succeeded then AttemptSucceeded else AttemptFailed, failure);
    if AdvanceSchedule(ended, claim.ruleId, claim.payload, now).Ok? {
      AdvanceFrame(ended, claim.ruleId, claim.payload, now);
    }
  }

  /** A completion that changes a rule ends its execution. */
  lemma AdvancingEnds(states: seq<Db>, ops: seq<Op>, i: nat)
    requires Run(states, ops) && i < |ops| && ops[i].CompleteOp? && states[i + 1].rules != states[i].rules
    ensures Ends(states, ops, i, ops[i].claim.executionId)
  {
    hide CompleteExecution, HandleCommand, ReceiveEvent, ReceiveTimer, ClaimExecutions, ReleaseExecution, MatchedRows, PickedRows;
    var op := ops[i];
    CompletedStatus(states[i], op.claim, op.succeeded, op.failure, op.now);
    CompletesUnended(states[i], op.claim, op.succeeded, op.failure, op.now);
  }

  lemma CompletesUnended(db: Db, claim: Claim, succeeded: bool, failure: Option<string>, now: Time)
    requires CompleteExecution(db, claim, succeeded, failure, now).reply.Ok?
    ensures claim.executionId in db.executions && !db.executions[claim.executionId].Terminal()
  {
    hide AdvanceSchedule, EndAttempt;
  }

  /** So an execution advances its schedule at most once in a run. */
  lemma AdvancesAtMostOnce(states: seq<Db>, ops: seq<Op>, i: nat, j: nat)
    requires Run(states, ops) && i < |ops| && j < |ops| && ops[i].CompleteOp? && ops[j].CompleteOp?
    requires ops[i].claim.executionId == ops[j].claim.executionId
    requires states[i + 1].rules != states[i].rules && states[j + 1].rules != states[j].rules
    requires Inv(states[0])
    ensures i == j
  {
    hide Inv, Enabled, Apply, Ends;
    AdvancingEnds(states, ops, i);
    AdvancingEnds(states, ops, j);
    EndsAtMostOnce(states, ops, i, j, ops[i].claim.executionId);
  }
}
