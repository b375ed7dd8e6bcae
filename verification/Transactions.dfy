/** Every storage transaction as a function from the database it starts on to the one it leaves.
    An early error or a replay drops the transaction, so it leaves the database as it was. */
module Transactions {
  import opened Results
  import opened Text
  import opened Schedule
  import opened Rules
  import opened Payloads
  import opened Targets
  import opened Keys
  import opened Tables

  datatype Tx<+T> = Tx(db: Db, reply: Result<T>)

  // ----- recurring schedules -----

  /** The first fire of a rule; none unless it is an enabled schedule. */
  function InitialNextFire(trigger: Trigger, enabled: bool, clock: Time): Result<Option<Time>> {
    if !enabled || !trigger.kind.OnSchedule? then Ok(None)
    else if trigger.intervalSeconds.None? then Err(InvalidRequest)
    else match FirstFire(trigger.intervalSeconds.value, trigger.startAt, clock)
      case Err(f) => Err(f)
      case Ok(t) => Ok(Some(t))
  }

  function CancelPending(ds: Dispatches, ruleId: string, keep: Option<Time>): Dispatches {
    map k | k in ds :: if k.0 == ruleId && ds[k].state.DispatchPending? && Some(k.1) != keep then ds[k].(state := Cancelled) else ds[k]
  }

  function Arm(ds: Dispatches, organizationId: string, ruleId: string, at: Time): Dispatches {
    var k := (ruleId, Stored(at));
    if k !in ds then ds[k := Dispatch(organizationId, DispatchPending, 0, ScheduleKey(ruleId, at), None, None)]
    else if ds[k].state.Cancelled? then ds[k := ds[k].(state := DispatchPending, lastFailure := None)]
    else ds
  }

  function ReplacePendingSchedule(ds: Dispatches, organizationId: string, ruleId: string, next: Option<Time>): Dispatches {
    match next
    case None => CancelPending(ds, ruleId, None)
    case Some(at) => Arm(CancelPending(ds, ruleId, Some(Stored(at))), organizationId, ruleId, at)
  }

  // ----- management commands -----

  datatype CommandStart = New | Replay(response: Response) | Conflict

  function ReserveCommand(commands: Commands, scope: Scope, request: Request): CommandStart {
    if scope !in commands then New
    else if commands[scope].request != request then Conflict
    else match commands[scope].response
      case None => Conflict
      case Some(response) => Replay(response)
  }

  predicate NameTaken(rules: RuleTable, except: string, organizationId: string, name: string, deletedAt: Option<Time>) {
    exists r :: r in rules && r != except
                && rules[r].organizationId == organizationId && rules[r].name == name && rules[r].deletedAt == deletedAt
  }

  predicate Found(rules: RuleTable, organizationId: string, ruleId: string) {
    ruleId in rules && rules[ruleId].organizationId == organizationId && rules[ruleId].Live()
  }

  /** The rule a request asks for, or the error the statements between reservation and receipt raise.
      `clock` is the process clock, `now` the transaction timestamp. */
  function ChangedRule(rules: RuleTable, request: Request, clock: Time, now: Time, rowSeq: int): Result<(Rule, Option<Time>)> {
    match request
    case CreateRequest(organizationId, ruleId, name, enabled, trigger, conditions, actions) =>
      (match InitialNextFire(trigger, enabled, clock)
       case Err(f) => Err(f)
       case Ok(next) =>
         if ruleId in rules then Err(RuleIdConflict)
         else if NameTaken(rules, ruleId, organizationId, name, None) then Err(RuleNameConflict)
         else Ok((Rule(organizationId, name, enabled, trigger, conditions, actions, 1, StoredOption(next),
                       rowSeq, now, now, None), next)))
    case UpdateRequest(organizationId, ruleId, expected, name, trigger, conditions, actions) =>
      if !Found(rules, organizationId, ruleId) then Err(NotFound)
      else
        var rule := rules[ruleId];
        (match InitialNextFire(trigger, rule.enabled, clock)
         case Err(f) => Err(f)
         case Ok(next) =>
           if rule.revision != expected then Err(RevisionConflict)
           else if rule.revision == I64_MAX then Err(Runtime)
           else if NameTaken(rules, ruleId, organizationId, name, None) then Err(RuleNameConflict)
           else Ok((rule.(name := name, trigger := trigger, conditions := conditions, actions := actions,
                          nextFireAt := StoredOption(next), revision := rule.revision + 1, updatedAt := now), next)))
    case SetEnabledRequest(organizationId, ruleId, expected, enabled) =>
      if !Found(rules, organizationId, ruleId) then Err(NotFound)
      else
        var rule := rules[ruleId];
        (match InitialNextFire(rule.trigger, enabled, clock)
         case Err(f) => Err(f)
         case Ok(next) =>
           if rule.revision != expected then Err(RevisionConflict)
           else if rule.revision == I64_MAX then Err(Runtime)
           else Ok((rule.(enabled := enabled, nextFireAt := StoredOption(next), revision := rule.revision + 1, updatedAt := now), next)))
    case DeleteRequest(organizationId, ruleId, expected) =>
      if !Found(rules, organizationId, ruleId) then Err(NotFound)
      else
        var rule := rules[ruleId];
        if rule.revision != expected then Err(RevisionConflict)
        else if rule.revision == I64_MAX then Err(Runtime)
        else if NameTaken(rules, ruleId, organizationId, rule.name, Some(now)) then Err(Runtime)
        else Ok((rule.(enabled := false, nextFireAt := None, deletedAt := Some(now), revision := rule.revision + 1, updatedAt := now), None))
  }

  function ResponseTo(request: Request, rule: Rule): Response {
    if request.DeleteRequest? then Deleted else RuleResponse(request.ruleId, rule)
  }

  /** The rows a committed command writes: the rule, its dispatches and its receipt. */
  function CommitCommand(db: Db, scope: Scope, request: Request, rule: Rule, next: Option<Time>): Db {
    db.(commands := db.commands[scope := Command(request, Some(ResponseTo(request, rule)))],
        rules := db.rules[request.ruleId := rule],
        dispatches := ReplacePendingSchedule(db.dispatches, request.organizationId, request.ruleId, next))
  }

  /** `create_rule`, `update_rule`, `set_enabled` and `delete_rule`. */
  function Manage(db: Db, scope: Scope, request: Request, clock: Time, now: Time, rowSeq: int): Tx<Response> {
    match ReserveCommand(db.commands, scope, request)
    case Replay(response) => Tx(db, Ok(response))
    case Conflict => Tx(db, Err(IdempotencyConflict))
    case New =>
      match ChangedRule(db.rules, request, clock, now, rowSeq)
      case Err(f) => Tx(db, Err(f))
      case Ok((rule, next)) => Tx(CommitCommand(db, scope, request, rule, next), Ok(ResponseTo(request, rule)))
  }

  predicate ValidCommandIdentity(request: Request, idempotencyKey: string) {
    ValidId(request.organizationId) && ValidId(request.ruleId) && ValidId(idempotencyKey)
  }

  predicate ValidRule(name: string, trigger: Trigger, conditions: seq<Condition>, actions: seq<Action>) {
    ValidText(name, 300) && ValidTrigger(trigger) && ValidConditions(conditions) && ValidActionsForTrigger(trigger, actions)
  }

  /** `valid_create_rule`, `valid_update_rule`, and the identity and revision checks of the other two commands. */
  predicate ValidRequest(request: Request, idempotencyKey: string) {
    && ValidCommandIdentity(request, idempotencyKey)
    && match request
       case CreateRequest(_, _, name, _, trigger, conditions, actions) => ValidRule(name, trigger, conditions, actions)
       case UpdateRequest(_, _, expected, name, trigger, conditions, actions) =>
         0 < expected <= I64_MAX && ValidRule(name, trigger, conditions, actions)
       case SetEnabledRequest(_, _, expected, _) => 0 < expected <= I64_MAX
       case DeleteRequest(_, _, expected) => 0 < expected <= I64_MAX
  }

  /** A management operation as a caller sees it: validation, then the storage transaction. */
  function HandleCommand(db: Db, scope: Scope, request: Request, clock: Time, now: Time, rowSeq: int): Tx<Response> {
    if !ValidRequest(request, scope.idempotencyKey) then Tx(db, Err(InvalidRequest))
    else Manage(db, scope, request, clock, now, rowSeq)
  }

  // ----- trigger intake -----

  predicate Received(triggers: Triggers, organizationId: string, source: Source, dedupeKey: Key) {
    exists t :: t in triggers && IsReceipt(triggers[t], organizationId, source, dedupeKey)
  }

  predicate IsReceipt(t: TriggerReceipt, organizationId: string, source: Source, dedupeKey: Key) {
    t.organizationId == organizationId && t.source == source && t.dedupeKey == dedupeKey
  }

  function ExecutionsFor(db: Db, organizationId: string, source: Source, dedupeKey: Key): set<string> {
    set e | e in db.executions && db.executions[e].triggerId in db.triggers
            && IsReceipt(db.triggers[db.executions[e].triggerId], organizationId, source, dedupeKey)
  }

  function NewReceipts(executionId: string, actions: seq<Action>): Receipts {
    map i: int | 0 <= i < |actions| :: (executionId, i) := ActionReceipt(actions[i].kind, ActionPending, 0, ActionKey(executionId, i), None, None)
  }

  function InsertExecution(db: Db, organizationId: string, ruleId: string, triggerId: string,
                           actions: seq<Action>, executionId: string): Db {
    db.(executions := db.executions[executionId := Execution(organizationId, ruleId, triggerId, actions, Pending, 0, None, None, None)],
        receipts := db.receipts + NewReceipts(executionId, actions))
  }

  predicate EventMatches(rule: Rule, event: Event) {
    && rule.organizationId == event.organizationId && rule.enabled && rule.Live() && rule.trigger.kind.OnEvent?
    && event.eventType in rule.trigger.eventTypes
    && ConditionsMatch(ConditionsJson(rule.conditions), EventJson(event))
  }

  function MatchingRules(rules: RuleTable, event: Event): set<string> {
    set r | r in rules && EventMatches(rules[r], event)
  }

  /** Inserts an execution for each of the first `n` matched rows, in the order they came back. */
  function InsertExecutions(db: Db, organizationId: string, triggerId: string, matched: seq<(string, string)>, n: nat): Db
    requires n <= |matched| && forall i :: 0 <= i < n ==> matched[i].0 in db.rules
  {
    if n == 0 then db
    else
      var (ruleId, executionId) := matched[n - 1];
      InsertExecution(InsertExecutions(db, organizationId, triggerId, matched, n - 1),
                      organizationId, ruleId, triggerId, db.rules[ruleId].actions, executionId)
  }

  function EventReceipt(event: Event): TriggerReceipt {
    TriggerReceipt(event.organizationId, EventSource, Other(event.dedupeKey), None, EventPayload(event), Stored(event.occurredAt))
  }

  /** The rows the matching query returned, each with the fresh id of its execution. */
  ghost predicate MatchedRows(db: Db, event: Event, matched: seq<(string, string)>) {
    && (forall r :: r in MatchingRules(db.rules, event) <==> exists i :: 0 <= i < |matched| && matched[i].0 == r)
    && (forall i, j :: 0 <= i < j < |matched| ==> matched[i].0 != matched[j].0 && matched[i].1 != matched[j].1)
    && (forall i :: 0 <= i < |matched| ==> matched[i].1 !in db.executions)
  }

  ghost function ReceiveEvent(db: Db, event: Event, triggerId: string, matched: seq<(string, string)>): Tx<Intake>
    requires MatchedRows(db, event, matched)
  {
    var key := Other(event.dedupeKey);
    if Received(db.triggers, event.organizationId, EventSource, key) then
      Tx(db, Ok(Intake(true, true, ExecutionsFor(db, event.organizationId, EventSource, key))))
    else
      assert forall i :: 0 <= i < |matched| ==> matched[i].0 in MatchingRules(db.rules, event);
      var received := db.(triggers := db.triggers[triggerId := EventReceipt(event)]);
      Tx(InsertExecutions(received, event.organizationId, triggerId, matched, |matched|), Ok(Intake(true, false, set m | m in matched :: m.1)))
  }

  predicate TimerAccepted(rules: RuleTable, organizationId: string, ruleId: string, scheduledFor: Time) {
    && Found(rules, organizationId, ruleId) && rules[ruleId].enabled && rules[ruleId].trigger.kind.OnSchedule?
    && rules[ruleId].nextFireAt == Some(scheduledFor)
  }

  function TimerReceipt(organizationId: string, ruleId: string, dedupeKey: Key, scheduledFor: Time): TriggerReceipt {
    TriggerReceipt(organizationId, TimerSource, dedupeKey, Some(ruleId),
                   TimerPayload(organizationId, ruleId, scheduledFor, dedupeKey), Stored(scheduledFor))
  }

  function ReceiveTimer(db: Db, organizationId: string, ruleId: string, dedupeKey: Key, scheduledFor: Time,
                        triggerId: string, executionId: string): Tx<Intake>
  {
    if dedupeKey != ScheduleKey(ruleId, scheduledFor) then Tx(db, Err(InvalidRequest))
    else if Received(db.triggers, organizationId, TimerSource, dedupeKey) then
      Tx(db, Ok(Intake(true, true, ExecutionsFor(db, organizationId, TimerSource, dedupeKey))))
    else if ruleId !in db.rules then Tx(db, Err(Runtime))
    else
      var received := db.(triggers := db.triggers[triggerId := TimerReceipt(organizationId, ruleId, dedupeKey, scheduledFor)]);
      if TimerAccepted(db.rules, organizationId, ruleId, scheduledFor) then
        Tx(InsertExecution(received, organizationId, ruleId, triggerId, db.rules[ruleId].actions, executionId),
           Ok(Intake(true, false, {executionId})))
      else Tx(received, Ok(Intake(false, false, {})))
  }

  // ----- leased execution -----

  predicate Claimable(e: Execution, organizationId: string, now: Time) {
    && e.organizationId == organizationId
    && (e.status.Pending? || (e.status.Running? && e.leaseUntil.Some? && e.leaseUntil.value < now))
  }

  function ExpireAttempt(attempts: Attempts, executionId: string, attempt: int): Attempts {
    var k := (executionId, attempt);
    if attempt > 0 && k in attempts && attempts[k].status.AttemptRunning?
    then attempts[k := attempts[k].(status := Retryable, failure := Some("lease_expired"))] else attempts
  }

  function ClaimOne(db: Db, executionId: string, worker: string, leaseUntil: Time): Db
    requires executionId in db.executions
  {
    var e := db.executions[executionId];
    db.(executions := db.executions[executionId := e.(status := Running, attempts := e.attempts + 1,
                                                     leaseOwner := Some(worker), leaseUntil := Some(leaseUntil))],
        attempts := ExpireAttempt(db.attempts, executionId, e.attempts)[(executionId, e.attempts + 1) := Attempt(worker, AttemptRunning, None)])
  }

  /** Claims the first `n` picked rows. */
  function ClaimAll(db: Db, picked: seq<string>, n: nat, worker: string, leaseUntil: Time): (r: Db)
    requires n <= |picked| && forall e :: e in picked ==> e in db.executions
    ensures r.executions.Keys == db.executions.Keys
  {
    if n == 0 then db else ClaimOne(ClaimAll(db, picked, n - 1, worker, leaseUntil), picked[n - 1], worker, leaseUntil)
  }

  /** Rows the locking query may return: SKIP LOCKED can leave out any of the claimable ones. */
  ghost predicate PickedRows(db: Db, organizationId: string, picked: seq<string>, limit: int, now: Time) {
    && |picked| <= limit && Distinct(picked)
    && forall e :: e in picked ==> e in db.executions && Claimable(db.executions[e], organizationId, now)
                                   && db.executions[e].triggerId in db.triggers
  }

  /** The claim of one row, read from the database as it was before the row was claimed. */
  function ClaimOf(db: Db, executionId: string, worker: string): Claim
    requires executionId in db.executions && db.executions[executionId].triggerId in db.triggers
  {
    var e := db.executions[executionId];
    Claim(executionId, e.ruleId, e.triggerId, e.attempts + 1, worker, db.triggers[e.triggerId].payload, e.actions)
  }

  function ClaimsOf(db: Db, picked: seq<string>, worker: string): (r: seq<Claim>)
    requires forall e :: e in picked ==> e in db.executions && db.executions[e].triggerId in db.triggers
  {
    seq(|picked|, i requires 0 <= i < |picked| => ClaimOf(db, picked[i], worker))
  }

  ghost function ClaimExecutions(db: Db, organizationId: string, worker: string, picked: seq<string>, limit: int,
                           leaseSeconds: int, now: Time): Tx<seq<Claim>>
    requires PickedRows(db, organizationId, picked, limit, now)
  {
    if exists e :: e in picked && db.executions[e].attempts == I32_MAX then Tx(db, Err(Runtime))
    else Tx(ClaimAll(db, picked, |picked|, worker, now + leaseSeconds * SECOND), Ok(ClaimsOf(db, picked, worker)))
  }

  function ActionStatus(db: Db, executionId: string, index: int): Tx<(ReceiptStatus, Key)> {
    var k := (executionId, index);
    if k !in db.receipts then Tx(db, Err(NotFound))
    else
      var r := db.receipts[k];
      Tx(db.(receipts := db.receipts[k := r.(attempts := r.attempts + 1)]), Ok((r.status, r.idempotencyKey)))
  }

  /** No lease is checked here. */
  function CompleteAction(db: Db, executionId: string, index: int, succeeded: bool,
                          response: Option<string>, failure: Option<string>): Db
  {
    var k := (executionId, index);
    if k !in db.receipts then db
    else db.(receipts := db.receipts[k := db.receipts[k].(status := if succeeded then ActionSucceeded else ActionFailed,
                                                         response := response, lastFailure := failure)])
  }

  predicate IsLeasedTo(e: Execution, claim: Claim, now: Time) {
    && e.attempts == claim.attempt && e.status.Running? && e.leaseOwner == Some(claim.worker)
    && e.leaseUntil.Some? && e.leaseUntil.value >= now
  }

  predicate HoldsLease(executions: Executions, claim: Claim, now: Time) {
    claim.executionId in executions && IsLeasedTo(executions[claim.executionId], claim, now)
  }

  /** Ends the running attempt of a claim: both statements that release and completion share. */
  function EndAttempt(db: Db, claim: Claim, status: ExecutionStatus, attemptStatus: AttemptStatus, failure: Option<string>): Db
    requires claim.executionId in db.executions
  {
    var k := (claim.executionId, claim.attempt);
    db.(executions := db.executions[claim.executionId := db.executions[claim.executionId].(
                        status := status, lastFailure := failure, leaseOwner := None, leaseUntil := None)],
        attempts := if k in db.attempts then db.attempts[k := db.attempts[k].(status := attemptStatus, failure := failure)]
                    else db.attempts)
  }

  function ReleaseExecution(db: Db, claim: Claim, failure: string, now: Time): Tx<()> {
    if !HoldsLease(db.executions, claim, now) then Tx(db, Err(Runtime))
    else Tx(EndAttempt(db, claim, Pending, Retryable, Some(failure)), Ok(()))
  }

  /** Moves a recurring rule past the slot a timer execution was made for. */
  function AdvanceSchedule(db: Db, ruleId: string, payload: Payload, now: Time): Result<Db> {
    if ruleId !in db.rules || !db.rules[ruleId].Live() then Ok(db)
    else
      var rule := db.rules[ruleId];
      var scheduledFor := AsTime(Get(PayloadJson(payload), "scheduled_for"));
      if !rule.enabled || !rule.trigger.kind.OnSchedule? || rule.nextFireAt != scheduledFor then Ok(db)
      else if rule.trigger.intervalSeconds.None? || scheduledFor.None? then Err(InvalidRequest)
      else match CheckedAddSeconds(scheduledFor.value, rule.trigger.intervalSeconds.value)
        case None => Err(Runtime)
        case Some(next) =>
          Ok(db.(rules := db.rules[ruleId := rule.(nextFireAt := Some(Stored(next)), updatedAt := now)],
                 dispatches := ReplacePendingSchedule(db.dispatches, rule.organizationId, ruleId, Some(next))))
  }

  function CompleteExecution(db: Db, claim: Claim, succeeded: bool, failure: Option<string>, now: Time): Tx<()> {
    if !HoldsLease(db.executions, claim, now) then Tx(db, Err(Runtime))
    else
      var ended := EndAttempt(db, claim, if succeeded then Succeeded else Failed,
                              if succeeded then AttemptSucceeded else AttemptFailed, failure);
      if claim.triggerId !in db.triggers then Tx(db, Err(Runtime))
      else if db.triggers[claim.triggerId].source.EventSource? then Tx(ended, Ok(()))
      else match AdvanceSchedule(ended, claim.ruleId, claim.payload, now)
        case Err(f) => Tx(db, Err(f))
        case Ok(advanced) => Tx(advanced, Ok(()))
  }

  // ----- dispatch receipts -----

  /** The first statement of `mark_dispatch_enqueued`. */
  function MarkEnqueued(ds: Dispatches, k: (string, Time), jobId: string): (Dispatches, bool) {
    if k in ds && ds[k].state.DispatchPending? then
      (ds[k := ds[k].(state := Enqueued, attempts := ds[k].attempts + 1, jobId := Some(jobId), lastFailure := None)], true)
    else (ds, false)
  }

  /** The second statement of `mark_dispatch_enqueued`. */
  function MarkCancelledEnqueue(ds: Dispatches, k: (string, Time), jobId: string): Dispatches {
    if k in ds && ds[k].state.Cancelled? then
      ds[k := ds[k].(attempts := ds[k].attempts + 1, jobId := Some(jobId), lastFailure := Some("cancelled_after_enqueue"))]
    else ds
  }

  function RecordDispatchFailure(ds: Dispatches, k: (string, Time), failure: string): Dispatches {
    if k in ds && ds[k].state.DispatchPending? then
      ds[k := ds[k].(attempts := ds[k].attempts + 1, lastFailure := Some(failure))]
    else ds
  }
}
