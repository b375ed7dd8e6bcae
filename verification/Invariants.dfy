/** What every reachable database satisfies, table by table. The uniqueness and foreign-key constraints of
    the schema are among the conjuncts, so the statements that could violate them never do. */
module Invariants {
  import opened Results
  import opened Schedule
  import opened Rules
  import opened Payloads
  import opened Targets
  import opened Keys
  import opened Tables
  import opened Transactions

  ghost predicate References(rules: RuleTable, triggers: Triggers, executions: Executions, dispatches: Dispatches) {
    && (forall t :: t in triggers && triggers[t].ruleId.Some? ==> triggers[t].ruleId.value in rules)
    && (forall e :: e in executions ==> ExecutionRefers(rules, triggers, executions[e]))
    && (forall k :: k in dispatches ==> k.0 in rules && dispatches[k].organizationId == rules[k.0].organizationId)
  }

  ghost predicate ExecutionRefers(rules: RuleTable, triggers: Triggers, e: Execution) {
    && e.ruleId in rules && e.triggerId in triggers
    && e.organizationId == rules[e.ruleId].organizationId == triggers[e.triggerId].organizationId
  }

  /** The schedule ledger: a rule has a next fire exactly while it is a live enabled schedule, a pending
      dispatch is for that fire (so there is at most one per rule), and that fire has a live dispatch. */
  ghost predicate Ledger(rules: RuleTable, dispatches: Dispatches) {
    && (forall r :: r in rules ==> (rules[r].nextFireAt.Some? <==> rules[r].Armable()))
    && (forall k :: k in dispatches && dispatches[k].state.DispatchPending? ==> k.0 in rules && rules[k.0].nextFireAt == Some(k.1))
    && (forall r :: r in rules && rules[r].nextFireAt.Some? ==> LiveDispatch(dispatches, r, rules[r].nextFireAt.value))
  }

  ghost predicate LiveDispatch(dispatches: Dispatches, ruleId: string, at: Time) {
    (ruleId, at) in dispatches && !dispatches[(ruleId, at)].state.Cancelled?
  }

  /** A dispatch keeps the key of some instant that is stored as its slot. */
  ghost predicate DispatchKeys(dispatches: Dispatches) {
    forall k :: k in dispatches ==> KeyOfSlot(k, dispatches[k].idempotencyKey)
  }

  ghost predicate KeyOfSlot(k: (string, Time), key: Key) {
    exists t :: Stored(t) == k.1 && key == ScheduleKey(k.0, t)
  }

  ghost predicate TriggersOk(triggers: Triggers) {
    && (forall s, t :: s in triggers && t in triggers && SameDelivery(triggers[s], triggers[t]) ==> s == t)
    && (forall t :: t in triggers ==> TriggerOk(triggers[t]))
  }

  ghost predicate SameDelivery(s: TriggerReceipt, t: TriggerReceipt) {
    IsReceipt(s, t.organizationId, t.source, t.dedupeKey)
  }

  ghost predicate TriggerOk(t: TriggerReceipt) {
    && (t.source.TimerSource? <==> t.payload.TimerPayload?)
    && (t.source.EventSource? ==> t.ruleId.None? && t.payload.event.organizationId == t.organizationId)
    && (t.source.TimerSource? ==>
          && t.ruleId == Some(t.payload.ruleId) && t.payload.organizationId == t.organizationId
          && t.dedupeKey == t.payload.dedupeKey == ScheduleKey(t.payload.ruleId, t.payload.scheduledFor))
  }

  /** One execution per rule and trigger; a timer execution belongs to the rule its trigger names. */
  ghost predicate IntakeOk(triggers: Triggers, executions: Executions) {
    && (forall e, f :: e in executions && f in executions && SameIntake(executions[e], executions[f]) ==> e == f)
    && (forall e :: e in executions ==> BelongsToTrigger(triggers, executions[e]))
  }

  ghost predicate SameIntake(e: Execution, f: Execution) {
    e.ruleId == f.ruleId && e.triggerId == f.triggerId
  }

  ghost predicate BelongsToTrigger(triggers: Triggers, e: Execution) {
    e.triggerId in triggers && (triggers[e.triggerId].ruleId.Some? ==> triggers[e.triggerId].ruleId.value == e.ruleId)
  }

  /** Attempt rows are exactly 1..attempts, all but the last retryable, and the last tells the status. */
  ghost predicate Leases(executions: Executions, attempts: Attempts) {
    && (forall k :: k in attempts ==> k.0 in executions)
    && (forall e :: e in executions ==> LeaseOk(e, executions[e], attempts))
  }

  ghost predicate LeaseOk(id: string, e: Execution, attempts: Attempts) {
    && e.attempts >= 0
    && (forall n :: (id, n) in attempts <==> 1 <= n <= e.attempts)
    && (forall n :: 1 <= n < e.attempts ==> attempts[(id, n)].status.Retryable?)
    && (e.attempts == 0 ==> e.status.Pending?)
    && (e.attempts > 0 ==> attempts[(id, e.attempts)].status == LastAttemptStatus(e.status))
    && (e.status.Running? <==> e.leaseOwner.Some?) && (e.status.Running? <==> e.leaseUntil.Some?)
    && (e.status.Running? ==> e.leaseOwner == Some(attempts[(id, e.attempts)].worker))
  }

  function LastAttemptStatus(s: ExecutionStatus): AttemptStatus {
    match s
    case Pending => Retryable
    case Running => AttemptRunning
    case Succeeded => AttemptSucceeded
    case Failed => AttemptFailed
  }

  /** Exactly one receipt per action of the snapshot, with its kind and its own key. */
  ghost predicate ReceiptsOk(executions: Executions, receipts: Receipts) {
    && (forall k :: k in receipts ==> k.0 in executions && ReceiptFor(executions[k.0], k, receipts[k]))
    && (forall e :: e in executions ==> forall i :: 0 <= i < |executions[e].actions| ==> (e, i) in receipts)
  }

  ghost predicate ReceiptFor(e: Execution, k: (string, int), r: ActionReceipt) {
    0 <= k.1 < |e.actions| && r.kind == e.actions[k.1].kind && r.idempotencyKey == ActionKey(k.0, k.1)
  }

  predicate Mutates(request: Request, ruleId: string) {
    !request.CreateRequest? && request.ruleId == ruleId
  }

  /** The committed commands that changed a rule after its creation. */
  function Mutations(commands: Commands, ruleId: string): set<Scope> {
    set s | s in commands && Mutates(commands[s].request, ruleId)
  }

  /** Every receipt is complete; a rule's revision counts its mutations, each of which named another revision. */
  ghost predicate CommandsOk(commands: Commands, rules: RuleTable) {
    && (forall s :: s in commands ==> CommandOk(s, commands[s], rules))
    && (forall s, t :: s in commands && t in commands && SameStep(commands[s].request, commands[t].request) ==> s == t)
    && (forall r :: r in rules ==> rules[r].revision == 1 + |Mutations(commands, r)|)
  }

  ghost predicate CommandOk(s: Scope, c: Command, rules: RuleTable) {
    && c.response.Some? && s.operation == OperationOf(c.request)
    && c.request.ruleId in rules && rules[c.request.ruleId].organizationId == c.request.organizationId
    && (!c.request.CreateRequest? ==> 1 <= c.request.expectedRevision < rules[c.request.ruleId].revision)
  }

  ghost predicate SameStep(s: Request, t: Request) {
    !s.CreateRequest? && !t.CreateRequest? && s.ruleId == t.ruleId && s.expectedRevision == t.expectedRevision
  }

  ghost predicate NamesOk(rules: RuleTable) {
    forall r, q :: r in rules && q in rules && SameName(rules[r], rules[q]) ==> r == q
  }

  ghost predicate SameName(a: Rule, b: Rule) {
    a.organizationId == b.organizationId && a.name == b.name && a.deletedAt == b.deletedAt
  }

  ghost predicate RulesValid(rules: RuleTable) {
    forall r :: r in rules ==> ValidRule(rules[r].name, rules[r].trigger, rules[r].conditions, rules[r].actions)
  }

  /** A snapshot is what a validated rule held: its actions are valid, and explicit if a timer took it. */
  ghost predicate SnapshotsValid(triggers: Triggers, executions: Executions) {
    forall e :: e in executions ==> SnapshotValid(triggers, executions[e])
  }

  ghost predicate SnapshotValid(triggers: Triggers, e: Execution) {
    && ValidActions(e.actions)
    && (e.triggerId in triggers && triggers[e.triggerId].source.TimerSource? ==> forall a :: a in e.actions ==> HasExplicitTarget(a))
  }

  ghost predicate Inv(db: Db) {
    && References(db.rules, db.triggers, db.executions, db.dispatches)
    && Ledger(db.rules, db.dispatches)
    && DispatchKeys(db.dispatches)
    && TriggersOk(db.triggers)
    && IntakeOk(db.triggers, db.executions)
    && Leases(db.executions, db.attempts)
    && ReceiptsOk(db.executions, db.receipts)
    && CommandsOk(db.commands, db.rules)
    && NamesOk(db.rules)
    && RulesValid(db.rules)
    && SnapshotsValid(db.triggers, db.executions)
  }
}
