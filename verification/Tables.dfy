/** The rows of the seven tables, and the database as one value. */
module Tables {
  import opened Results
  import opened Schedule
  import opened Rules
  import opened Targets
  import opened Keys

  datatype Operation = CreateRuleOperation | UpdateRuleOperation | SetRuleEnabledOperation | DeleteRuleOperation

  /** The primary key of a command receipt. */
  datatype Scope = Scope(caller: string, actor: string, operation: Operation, idempotencyKey: string)

  /** A management request; its SHA-256 is taken to identify it. */
  datatype Request =
    | CreateRequest(organizationId: string, ruleId: string, name: string, enabled: bool,
                    trigger: Trigger, conditions: seq<Condition>, actions: seq<Action>)
    | UpdateRequest(organizationId: string, ruleId: string, expectedRevision: int, name: string,
                    trigger: Trigger, conditions: seq<Condition>, actions: seq<Action>)
    | SetEnabledRequest(organizationId: string, ruleId: string, expectedRevision: int, enabled: bool)
    | DeleteRequest(organizationId: string, ruleId: string, expectedRevision: int)

  function OperationOf(request: Request): Operation {
    match request
    case CreateRequest(_, _, _, _, _, _, _) => CreateRuleOperation
    case UpdateRequest(_, _, _, _, _, _, _) => UpdateRuleOperation
    case SetEnabledRequest(_, _, _, _) => SetRuleEnabledOperation
    case DeleteRequest(_, _, _) => DeleteRuleOperation
  }

  datatype Response = RuleResponse(ruleId: string, rule: Rule) | Deleted

  datatype Command = Command(request: Request, response: Option<Response>)

  datatype Rule = Rule(
    organizationId: string, name: string, enabled: bool, trigger: Trigger,
    conditions: seq<Condition>, actions: seq<Action>, revision: int, nextFireAt: Option<Time>,
    rowSeq: int, createdAt: Time, updatedAt: Time, deletedAt: Option<Time>)
  {
    predicate Live() {
      deletedAt.None?
    }

    predicate Armable() {
      Live() && enabled && trigger.kind.OnSchedule?
    }
  }

  datatype Source = EventSource | TimerSource

  datatype TriggerReceipt = TriggerReceipt(
    organizationId: string, source: Source, dedupeKey: Key, ruleId: Option<string>, payload: Payload, occurredAt: Time)

  datatype ExecutionStatus = Pending | Running | Succeeded | Failed

  datatype Execution = Execution(
    organizationId: string, ruleId: string, triggerId: string, actions: seq<Action>, status: ExecutionStatus,
    attempts: int, lastFailure: Option<string>, leaseOwner: Option<string>, leaseUntil: Option<Time>)
  {
    predicate Terminal() {
      status.Succeeded? || status.Failed?
    }
  }

  datatype AttemptStatus = AttemptRunning | AttemptSucceeded | AttemptFailed | Retryable

  datatype Attempt = Attempt(worker: string, status: AttemptStatus, failure: Option<string>)

  datatype ReceiptStatus = ActionPending | ActionSucceeded | ActionFailed

  datatype ActionReceipt = ActionReceipt(
    kind: ActionKind, status: ReceiptStatus, attempts: nat, idempotencyKey: Key,
    lastFailure: Option<string>, response: Option<string>)

  datatype DispatchState = DispatchPending | Enqueued | Cancelled

  datatype Dispatch = Dispatch(
    organizationId: string, state: DispatchState, attempts: nat, idempotencyKey: Key,
    jobId: Option<string>, lastFailure: Option<string>)

  /** A pending dispatch as a flush reads it, which is also the payload of its job. */
  datatype ScheduleDispatch = ScheduleDispatch(ruleId: string, organizationId: string, scheduledFor: Time, idempotencyKey: Key)

  function JobOf(k: (string, Time), d: Dispatch): ScheduleDispatch {
    ScheduleDispatch(k.0, d.organizationId, k.1, d.idempotencyKey)
  }

  function SlotKey(d: ScheduleDispatch): (string, Time) {
    (d.ruleId, d.scheduledFor)
  }

  type Commands = map<Scope, Command>
  type RuleTable = map<string, Rule>
  type Triggers = map<string, TriggerReceipt>
  type Executions = map<string, Execution>
  type Attempts = map<(string, int), Attempt>
  type Receipts = map<(string, int), ActionReceipt>
  type Dispatches = map<(string, Time), Dispatch>

  datatype Db = Db(
    commands: Commands, rules: RuleTable, triggers: Triggers, executions: Executions,
    attempts: Attempts, receipts: Receipts, dispatches: Dispatches)

  const EMPTY: Db := Db(map[], map[], map[], map[], map[], map[], map[])

  /** What a claim hands to the worker: the execution, and the attempt that fences it. */
  datatype Claim = Claim(
    executionId: string, ruleId: string, triggerId: string, attempt: int, worker: string,
    payload: Payload, actions: seq<Action>)

  /** What trigger intake answers; the ids are compared as a set. */
  datatype Intake = Intake(accepted: bool, duplicate: bool, executionIds: set<string>)
}
