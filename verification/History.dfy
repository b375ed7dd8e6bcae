/** What later states of a run keep of earlier ones: nothing recorded is ever rewritten. */
module History {
  import opened Results
  import opened Schedule
  import opened Rules
  import opened Payloads
  import opened Targets
  import opened Keys
  import opened Tables
  import opened Transactions
  import opened Invariants
  import opened Preservation
  import opened Runs
  import opened Frames

  ghost predicate Kept<K, V>(m: map<K, V>, m': map<K, V>) {
    forall k :: k in m ==> k in m' && m'[k] == m[k]
  }

  /** Revisions only grow, a rule never changes organization, and a deleted rule never changes at all. */
  ghost predicate RulesLater(m: RuleTable, m': RuleTable) {
    forall r :: r in m ==> r in m' && RuleLater(m[r], m'[r])
  }

  ghost predicate RuleLater(a: Rule, b: Rule) {
    && a.organizationId == b.organizationId && a.rowSeq == b.rowSeq && a.createdAt == b.createdAt
    && a.revision <= b.revision && (a.deletedAt.Some? ==> a == b)
  }

  /** An execution keeps its snapshot, counts its attempts up, and is final once terminal. */
  ghost predicate ExecutionsLater(m: Executions, m': Executions) {
    forall e :: e in m ==> e in m' && ExecutionLater(m[e], m'[e])
  }

  ghost predicate ExecutionLater(a: Execution, b: Execution) {
    SameIdentity(a, b) && a.attempts <= b.attempts && (a.Terminal() ==> a == b)
  }

  /** An attempt row that is no longer running is final. */
  ghost predicate AttemptsLater(m: Attempts, m': Attempts) {
    forall k :: k in m ==> k in m' && m'[k].worker == m[k].worker && (!m[k].status.AttemptRunning? ==> m'[k] == m[k])
  }

  ghost predicate ReceiptsLater(m: Receipts, m': Receipts) {
    forall k :: k in m ==> k in m' && m'[k].kind == m[k].kind && m'[k].idempotencyKey == m[k].idempotencyKey
  }

  /** An enqueued dispatch stays enqueued, and no dispatch changes its organization or key. */
  ghost predicate DispatchesLater(m: Dispatches, m': Dispatches) {
    forall k :: k in m ==> k in m' && DispatchLater(m[k], m'[k])
  }

  ghost predicate DispatchLater(a: Dispatch, b: Dispatch) {
    && a.organizationId == b.organizationId && a.idempotencyKey == b.idempotencyKey
    && (a.state.Enqueued? ==> b.state.Enqueued?)
  }

  ghost predicate Later(a: Db, b: Db) {
    && Kept(a.commands, b.commands)
    && RulesLater(a.rules, b.rules)
    && Kept(a.triggers, b.triggers)
    && ExecutionsLater(a.executions, b.executions)
    && AttemptsLater(a.attempts, b.attempts)
    && ReceiptsLater(a.receipts, b.receipts)
    && DispatchesLater(a.dispatches, b.dispatches)
  }

  lemma LaterIsReflexive(a: Db)
    ensures Later(a, a)
  {
  }

  lemma DispatchesLaterReflexive(ds: Dispatches)
    ensures DispatchesLater(ds, ds)
  {
  }

  lemma LaterIsTransitive(a: Db, b: Db, c: Db)
    requires Later(a, b) && Later(b, c)
    ensures Later(a, c)
  {
    forall e | e in a.executions ensures e in c.executions && ExecutionLater(a.executions[e], c.executions[e]) {
      assert ExecutionLater(a.executions[e], b.executions[e]);
    }
    forall r | r in a.rules ensures r in c.rules && RuleLater(a.rules[r], c.rules[r]) {
      assert RuleLater(a.rules[r], b.rules[r]);
    }
    forall k | k in a.dispatches ensures k in c.dispatches && DispatchLater(a.dispatches[k], c.dispatches[k]) {
      assert DispatchLater(a.dispatches[k], b.dispatches[k]);
    }
  }

  lemma DispatchesAfterReplacement(ds: Dispatches, organizationId: string, ruleId: string, next: Option<Time>)
    ensures DispatchesLater(ds, ReplacePendingSchedule(ds, organizationId, ruleId, next))
  {
    var after := ReplacePendingSchedule(ds, organizationId, ruleId, next);
    forall k | k in ds ensures k in after && DispatchLater(ds[k], after[k]) {
      DispatchAfter(ds, organizationId, ruleId, next, k);
    }
  }

  lemma RuleAfterCommand(rules: RuleTable, request: Request, clock: Time, now: Time, rowSeq: int)
    requires ChangedRule(rules, request, clock, now, rowSeq).Ok?
    ensures RulesLater(rules, rules[request.ruleId := ChangedRule(rules, request, clock, now, rowSeq).value.0])
  {
    var rule := ChangedRule(rules, request, clock, now, rowSeq).value.0;
    match request
    case CreateRequest(_, _, _, _, _, _, _) =>
    case UpdateRequest(_, _, _, _, _, _, _) => assert RuleLater(rules[request.ruleId], rule);
    case SetEnabledRequest(_, _, _, _) => assert RuleLater(rules[request.ruleId], rule);
    case DeleteRequest(_, _, _) => assert RuleLater(rules[request.ruleId], rule);
  }

  lemma ManagementIsLater(db: Db, scope: Scope, request: Request, clock: Time, now: Time, rowSeq: int)
    ensures Later(db, HandleCommand(db, scope, request, clock, now, rowSeq).db)
  {
    hide RulesLater, DispatchesLater, ValidRequest;
    LaterIsReflexive(db);
    if ReserveCommand(db.commands, scope, request).New? && ChangedRule(db.rules, request, clock, now, rowSeq).Ok? {
      var (rule, next) := ChangedRule(db.rules, request, clock, now, rowSeq).value;
      RuleAfterCommand(db.rules, request, clock, now, rowSeq);
      DispatchesAfterReplacement(db.dispatches, request.organizationId, request.ruleId, next);
    }
  }

  lemma InsertIsLater(db: Db, organizationId: string, ruleId: string, triggerId: string, executionId: string)
    requires executionId !in db.executions && ruleId in db.rules && ReceiptsOk(db.executions, db.receipts)
    ensures Later(db, InsertExecution(db, organizationId, ruleId, triggerId, db.rules[ruleId].actions, executionId))
  {
    LaterIsReflexive(db);
    forall k | k in db.receipts ensures k !in NewReceipts(executionId, db.rules[ruleId].actions) {
      NewReceiptsContents(executionId, db.rules[ruleId].actions, k);
    }
  }

  lemma NewTriggerIsLater(db: Db, triggerId: string, t: TriggerReceipt)
    requires triggerId !in db.triggers
    ensures Later(db, db.(triggers := db.triggers[triggerId := t]))
  {
    LaterIsReflexive(db);
  }

  lemma NextInsertIsLater(db: Db, organizationId: string, triggerId: string, matched: seq<(string, string)>, n: nat)
    requires n < |matched| && FreshRows(db, matched) && Inv(InsertExecutions(db, organizationId, triggerId, matched, n))
    ensures Later(InsertExecutions(db, organizationId, triggerId, matched, n), InsertExecutions(db, organizationId, triggerId, matched, n + 1))
  {
    hide Inv, Later, ReceiptsOk;
    var before := InsertExecutions(db, organizationId, triggerId, matched, n);
    InsertExecutionsFrame(db, organizationId, triggerId, matched, n);
    InsertedNothingElse(db, organizationId, triggerId, matched, n, matched[n].1);
    InvariantReceipts(before);
    InsertIsLater(before, organizationId, matched[n].0, triggerId, matched[n].1);
  }

  lemma NothingInserted(db: Db, organizationId: string, triggerId: string, matched: seq<(string, string)>)
    ensures Later(db, InsertExecutions(db, organizationId, triggerId, matched, 0))
  {
    LaterIsReflexive(db);
  }

  lemma {:induction false} InsertExecutionsAreLater(db: Db, organizationId: string, triggerId: string,
                                                    matched: seq<(string, string)>, n: nat)
    requires triggerId in db.triggers && db.triggers[triggerId].source.EventSource?
    requires db.triggers[triggerId].organizationId == organizationId
    requires forall e :: e in db.executions ==> db.executions[e].triggerId != triggerId
    requires n <= |matched| && (forall i :: 0 <= i < n ==> matched[i].0 in db.rules) && FreshRows(db, matched)
    requires forall i :: 0 <= i < n ==> db.rules[matched[i].0].organizationId == organizationId
    requires Inv(db)
    ensures Later(db, InsertExecutions(db, organizationId, triggerId, matched, n))
  {
    hide *;
    NothingInserted(db, organizationId, triggerId, matched);
    if n > 0 {
      InsertExecutionsAreLater(db, organizationId, triggerId, matched, n - 1);
      InsertExecutionsKeepInvariant(db, organizationId, triggerId, matched, n - 1);
      NextInsertIsLater(db, organizationId, triggerId, matched, n - 1);
      LaterIsTransitive(db, InsertExecutions(db, organizationId, triggerId, matched, n - 1),
                        InsertExecutions(db, organizationId, triggerId, matched, n));
    }
  }

  lemma InvariantReceipts(db: Db)
    requires Inv(db)
    ensures ReceiptsOk(db.executions, db.receipts)
  {
  }

  lemma EventIsLater(db: Db, event: Event, triggerId: string, matched: seq<(string, string)>)
    requires triggerId !in db.triggers && MatchedRows(db, event, matched)
    requires Inv(db)
    ensures Later(db, ReceiveEvent(db, event, triggerId, matched).db)
  {
    hide Inv, Later, ConditionsMatch, Received, TriggerOk, InsertExecution;
    LaterIsReflexive(db);
    if !Received(db.triggers, event.organizationId, EventSource, Other(event.dedupeKey)) {
      var received := db.(triggers := db.triggers[triggerId := EventReceipt(event)]);
      EventReceiptOk(event);
      NewTriggerHasNoExecution(db, triggerId);
      NewTriggerIsLater(db, triggerId, EventReceipt(event));
      ReceiptKeepsInvariant(db, triggerId, EventReceipt(event));
      MatchedFacts(db, event, matched);
      InsertExecutionsAreLater(received, event.organizationId, triggerId, matched, |matched|);
      LaterIsTransitive(db, received, ReceiveEvent(db, event, triggerId, matched).db);
    }
  }

  lemma TimerIsLater(db: Db, organizationId: string, ruleId: string, dedupeKey: Key, scheduledFor: Time,
                     triggerId: string, executionId: string)
    requires triggerId !in db.triggers && executionId !in db.executions && Inv(db)
    ensures Later(db, ReceiveTimer(db, organizationId, ruleId, dedupeKey, scheduledFor, triggerId, executionId).db)
  {
    hide Inv, ReceiptsOk, Later, ScheduleKey, Received, TimerAccepted;
    InvariantReceipts(db);
    LaterIsReflexive(db);
    var after := ReceiveTimer(db, organizationId, ruleId, dedupeKey, scheduledFor, triggerId, executionId).db;
    if after.triggers != db.triggers {
      var received := db.(triggers := after.triggers);
      NewTriggerIsLater(db, triggerId, after.triggers[triggerId]);
      if TimerAccepted(db.rules, organizationId, ruleId, scheduledFor) {
        AcceptedIsInserted(db, organizationId, ruleId, dedupeKey, scheduledFor, triggerId, executionId);
        InsertIsLater(received, organizationId, ruleId, triggerId, executionId);
        LaterIsTransitive(db, received, after);
      }
    }
  }

  lemma AcceptedIsInserted(db: Db, organizationId: string, ruleId: string, dedupeKey: Key, scheduledFor: Time,
                           triggerId: string, executionId: string)
    requires TimerAccepted(db.rules, organizationId, ruleId, scheduledFor)
    ensures var after := ReceiveTimer(db, organizationId, ruleId, dedupeKey, scheduledFor, triggerId, executionId).db;
            after == db || after == InsertExecution(db.(triggers := after.triggers), organizationId, ruleId, triggerId,
                                                    db.rules[ruleId].actions, executionId)
  {
  }

  lemma ClaimOneIsLater(db: Db, id: string, worker: string, leaseUntil: Time)
    requires Leases(db.executions, db.attempts) && id in db.executions && !db.executions[id].Terminal()
    ensures Later(db, ClaimOne(db, id, worker, leaseUntil))
  {
    hide RulesLater, ReceiptsLater, DispatchesLater, Kept;
    LaterIsReflexive(db);
    assert LeaseOk(id, db.executions[id], db.attempts);
  }

  lemma NextClaimIsLater(db: Db, picked: seq<string>, n: nat, worker: string, leaseUntil: Time)
    requires n < |picked| && Distinct(picked) && (forall e :: e in picked ==> e in db.executions && !db.executions[e].Terminal())
    requires Inv(ClaimAll(db, picked, n, worker, leaseUntil))
    ensures Later(ClaimAll(db, picked, n, worker, leaseUntil), ClaimAll(db, picked, n + 1, worker, leaseUntil))
  {
    hide Inv, Later, Leases, Distinct;
    var before := ClaimAll(db, picked, n, worker, leaseUntil);
    StillClaimable(db, picked, n, worker, leaseUntil);
    InvariantLeases(before);
    ClaimOneIsLater(before, picked[n], worker, leaseUntil);
  }

  lemma NothingClaimed(db: Db, picked: seq<string>, worker: string, leaseUntil: Time)
    requires forall e :: e in picked ==> e in db.executions
    ensures Later(db, ClaimAll(db, picked, 0, worker, leaseUntil))
  {
    LaterIsReflexive(db);
  }

  lemma {:induction false} ClaimAllIsLater(db: Db, picked: seq<string>, n: nat, worker: string, leaseUntil: Time)
    requires Inv(db) && n <= |picked| && Distinct(picked)
    requires forall e :: e in picked ==> e in db.executions && !db.executions[e].Terminal()
    ensures Later(db, ClaimAll(db, picked, n, worker, leaseUntil))
  {
    hide *;
    NothingClaimed(db, picked, worker, leaseUntil);
    if n > 0 {
      ClaimAllIsLater(db, picked, n - 1, worker, leaseUntil);
      ClaimAllKeepsInvariant(db, picked, n - 1, worker, leaseUntil);
      NextClaimIsLater(db, picked, n - 1, worker, leaseUntil);
      LaterIsTransitive(db, ClaimAll(db, picked, n - 1, worker, leaseUntil), ClaimAll(db, picked, n, worker, leaseUntil));
    }
  }

  lemma EndAttemptIsLater(db: Db, claim: Claim, status: ExecutionStatus, failure: Option<string>, now: Time)
    requires Leases(db.executions, db.attempts) && HoldsLease(db.executions, claim, now)
    ensures Later(db, EndAttempt(db, claim, status, LastAttemptStatus(status), failure))
  {
    LaterIsReflexive(db);
    assert LeaseOk(claim.executionId, db.executions[claim.executionId], db.attempts);
  }

  lemma AdvanceIsLater(db: Db, ruleId: string, payload: Payload, now: Time)
    requires AdvanceSchedule(db, ruleId, payload, now).Ok?
    ensures Later(db, AdvanceSchedule(db, ruleId, payload, now).value)
  {
    hide DispatchesLater, PayloadJson, Get, ReplacePendingSchedule;
    DispatchesLaterReflexive(db.dispatches);
    var after := AdvanceSchedule(db, ruleId, payload, now).value;
    if after != db {
      var rule := after.rules[ruleId];
      DispatchesAfterReplacement(db.dispatches, rule.organizationId, ruleId,
                                 CheckedAddSeconds(db.rules[ruleId].nextFireAt.value, rule.trigger.intervalSeconds.value));
    }
  }

  lemma CompleteIsLater(db: Db, claim: Claim, succeeded: bool, failure: Option<string>, now: Time)
    requires Inv(db)
    ensures Later(db, CompleteExecution(db, claim, succeeded, failure, now).db)
  {
    hide Inv, Later, AdvanceSchedule, EndAttempt, Leases;
    LaterIsReflexive(db);
    InvariantLeases(db);
    if HoldsLease(db.executions, claim, now) {
      var status := if succeeded then Succeeded else Failed;
      var ended := EndAttempt(db, claim, status, LastAttemptStatus(status), failure);
      EndAttemptIsLater(db, claim, status, failure, now);
      if AdvanceSchedule(ended, claim.ruleId, claim.payload, now).Ok? {
        AdvanceIsLater(ended, claim.ruleId, claim.payload, now);
        LaterIsTransitive(db, ended, AdvanceSchedule(ended, claim.ruleId, claim.payload, now).value);
      }
    }
  }

  lemma StepIsLater(db: Db, op: Op)
    requires Enabled(db, op)
    requires Inv(db)
    ensures Later(db, Apply(db, op))
  {
    hide Inv, Later, AdvanceSchedule, HandleCommand, ReceiveEvent, ReceiveTimer, CompleteExecution, EndAttempt, ClaimAll,
         MatchedRows, Distinct;
    match op
    case ManageOp(scope, request, clock, now, rowSeq) => ManagementIsLater(db, scope, request, clock, now, rowSeq);
    case ReceiveEventOp(event, triggerId, matched) => EventIsLater(db, event, triggerId, matched);
    case ReceiveTimerOp(organizationId, ruleId, dedupeKey, scheduledFor, triggerId, executionId) =>
      TimerIsLater(db, organizationId, ruleId, dedupeKey, scheduledFor, triggerId, executionId);
    case ClaimOp(organizationId, worker, picked, limit, leaseSeconds, now) =>
      LaterIsReflexive(db);
      ClaimAllIsLater(db, picked, |picked|, worker, now + leaseSeconds * SECOND);
    case ActionStatusOp(executionId, index) => ReceiptStep(db, op, (executionId, index));
    case CompleteActionOp(executionId, index, succeeded, response, failure) => ReceiptStep(db, op, (executionId, index));
    case ReleaseOp(claim, reason, now) => ReleaseIsLater(db, claim, reason, now);
    case CompleteOp(claim, succeeded, failure, now) => CompleteIsLater(db, claim, succeeded, failure, now);
    case MarkEnqueuedOp(slot, jobId) => MarkStep(db, op);
    case MarkCancelledOp(slot, jobId) => MarkStep(db, op);
    case RecordFailureOp(slot, reason) => MarkStep(db, op);
  }

  lemma ReleaseIsLater(db: Db, claim: Claim, reason: string, now: Time)
    requires Inv(db)
    ensures Later(db, ReleaseExecution(db, claim, reason, now).db)
  {
    hide Later, Inv;
    LaterIsReflexive(db);
    if HoldsLease(db.executions, claim, now) {
      InvariantLeases(db);
      EndAttemptIsLater(db, claim, Pending, Some(reason), now);
    }
  }

  lemma ReceiptStep(db: Db, op: Op, k: (string, int))
    requires (op.ActionStatusOp? && k == (op.executionId, op.index)) || (op.CompleteActionOp? && k == (op.executionId, op.index))
    ensures Later(db, Apply(db, op))
  {
    LaterIsReflexive(db);
  }

  lemma MarkStep(db: Db, op: Op)
    requires op.MarkEnqueuedOp? || op.MarkCancelledOp? || op.RecordFailureOp?
    ensures Later(db, Apply(db, op))
  {
    LaterIsReflexive(db);
  }

  /** Along a run, every state keeps what every earlier state recorded. */
  lemma {:induction false} LaterOverRuns(states: seq<Db>, ops: seq<Op>, i: nat, j: nat)
    requires Run(states, ops) && i <= j < |states| && Inv(states[0])
    ensures Later(states[i], states[j])
    decreases j - i
  {
    hide Inv, Later, Enabled, Apply;
    if i == j {
      LaterIsReflexive(states[i]);
    } else {
      InvariantOverRuns(states, ops, j - 1);
      LaterOverRuns(states, ops, i, j - 1);
      StepIsLater(states[j - 1], ops[j - 1]);
      LaterIsTransitive(states[i], states[j - 1], states[j]);
    }
  }

  /** What `Later` says of one execution. */
  lemma ExecutionOverRuns(states: seq<Db>, ops: seq<Op>, i: nat, j: nat, e: string)
    requires Run(states, ops) && i <= j < |states| && e in states[i].executions && Inv(states[0])
    ensures e in states[j].executions && ExecutionLater(states[i].executions[e], states[j].executions[e])
  {
    hide Inv, Run, Enabled, Apply;
    LaterOverRuns(states, ops, i, j);
  }

  // ----- fencing -----

  /** A claim is stale once its execution has been claimed again or is terminal. */
  ghost predicate Stale(db: Db, claim: Claim) {
    && claim.executionId in db.executions
    && var e := db.executions[claim.executionId]; claim.attempt < e.attempts || e.Terminal()
  }

  /** Once a claim is stale, completing or releasing it changes nothing, however much later and with
      whatever clock: not its execution, its attempts, its rule, nor any dispatch. */
  lemma StaleClaimsAreFenced(states: seq<Db>, ops: seq<Op>, i: nat, j: nat)
    requires Run(states, ops) && i <= j < |ops| && (ops[j].CompleteOp? || ops[j].ReleaseOp?)
    requires Stale(states[i], ops[j].claim)
    requires Inv(states[0])
    ensures states[j + 1] == states[j]
  {
    hide Inv, HoldsLease, EndAttempt, AdvanceSchedule, SameIdentity;
    var claim := ops[j].claim;
    ExecutionOverRuns(states, ops, i, j, claim.executionId);
    StaleHoldsNoLease(states[j], claim, ops[j].now);
  }

  lemma StaleHoldsNoLease(db: Db, claim: Claim, now: Time)
    requires Stale(db, claim)
    ensures !HoldsLease(db.executions, claim, now)
  {
  }

  ghost predicate Ends(states: seq<Db>, ops: seq<Op>, i: nat, executionId: string)
    requires Run(states, ops) && i < |ops|
  {
    && executionId in states[i].executions && !states[i].executions[executionId].Terminal()
    && executionId in states[i + 1].executions && states[i + 1].executions[executionId].Terminal()
  }

  /** An execution becomes terminal at most once in a run. */
  lemma EndsAtMostOnce(states: seq<Db>, ops: seq<Op>, i: nat, j: nat, executionId: string)
    requires Run(states, ops) && i < |ops| && j < |ops|
    requires Ends(states, ops, i, executionId) && Ends(states, ops, j, executionId)
    requires Inv(states[0])
    ensures i == j
  {
    hide Inv, Enabled, Apply, SameIdentity;
    if i < j {
      ExecutionOverRuns(states, ops, i + 1, j, executionId);
    } else if j < i {
      ExecutionOverRuns(states, ops, j + 1, i, executionId);
    }
  }
}
