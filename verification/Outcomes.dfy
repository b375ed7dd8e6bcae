/** What management commands write and answer, told in terms of the request and of the rows before. */
module Outcomes {
  import opened Results
  import opened Text
  import opened Schedule
  import opened Rules
  import opened Payloads
  import opened Targets
  import opened Keys
  import opened Tables
  import opened Transactions
  import opened Invariants
  import opened Preservation
  import opened Runs
  import opened Frames
  import opened History
  import opened Intakes
  import opened CommandLaws
  import opened Effects
  import opened Paging

  // ----- first fires -----

  /** A rule is armed at the first fire of its trigger if it is an enabled schedule, and else not at all. */
  ghost predicate IsArming(trigger: Trigger, enabled: bool, clock: Time, next: Option<Time>) {
    if enabled && trigger.kind.OnSchedule? then
      && trigger.intervalSeconds.Some? && next.Some?
      && Representable(next.value) && IsFirstFire(trigger.intervalSeconds.value, trigger.startAt, clock, next.value)
    else next.None?
  }

  /** It would be armed, but no first fire can be represented. */
  ghost predicate Unarmable(trigger: Trigger, enabled: bool, clock: Time) {
    forall next :: !IsArming(trigger, enabled, clock, next)
  }

  ghost predicate InRange(trigger: Trigger, clock: Time) {
    Representable(clock) && Representable(Base(trigger.startAt, clock))
  }

  lemma InitialNextFireIff(trigger: Trigger, enabled: bool, clock: Time, next: Option<Time>)
    requires ValidTrigger(trigger) && InRange(trigger, clock)
    ensures InitialNextFire(trigger, enabled, clock) == Ok(next) <==> IsArming(trigger, enabled, clock, next)
    ensures InitialNextFire(trigger, enabled, clock).Err? ==> InitialNextFire(trigger, enabled, clock) == Err(InvalidRequest)
  {
    hide IsFirstFire, FirstFire, Representable, Base;
    if enabled && trigger.kind.OnSchedule? {
      FirstFireIff(trigger.intervalSeconds.value, trigger.startAt, clock, if next.Some? then next.value else 0);
    }
  }

  lemma InitialNextFireFails(trigger: Trigger, enabled: bool, clock: Time)
    requires ValidTrigger(trigger) && InRange(trigger, clock)
    ensures InitialNextFire(trigger, enabled, clock) == Err(InvalidRequest) <==> Unarmable(trigger, enabled, clock)
    ensures InitialNextFire(trigger, enabled, clock) == Err(InvalidRequest) || InitialNextFire(trigger, enabled, clock).Ok?
  {
    hide InitialNextFire, IsArming, InRange;
    forall next ensures InitialNextFire(trigger, enabled, clock) == Ok(next) <==> IsArming(trigger, enabled, clock, next) {
      InitialNextFireIff(trigger, enabled, clock, next);
    }
    InitialNextFireIff(trigger, enabled, clock, None);
  }

  // ----- what a command writes -----

  /** The row a command leaves: what the request says, and of what it does not speak, what was there. */
  ghost predicate IsAsked(before: RuleTable, request: Request, now: Time, rowSeq: int, rule: Rule) {
    && rule.organizationId == request.organizationId && rule.updatedAt == now
    && match request
       case CreateRequest(_, ruleId, name, enabled, trigger, conditions, actions) =>
         && ruleId !in before && rule.Live() && rule.revision == 1 && rule.rowSeq == rowSeq && rule.createdAt == now
         && HasDefinition(rule, name, trigger, conditions, actions) && rule.enabled == enabled
       case UpdateRequest(_, ruleId, expected, name, trigger, conditions, actions) =>
         && IsNextRevision(before, ruleId, expected, rule) && rule.Live()
         && HasDefinition(rule, name, trigger, conditions, actions) && rule.enabled == before[ruleId].enabled
       case SetEnabledRequest(_, ruleId, expected, enabled) =>
         IsNextRevision(before, ruleId, expected, rule) && rule.Live() && SameDefinition(before[ruleId], rule) && rule.enabled == enabled
       case DeleteRequest(_, ruleId, expected) =>
         IsNextRevision(before, ruleId, expected, rule) && rule.deletedAt == Some(now) && SameDefinition(before[ruleId], rule) && !rule.enabled
  }

  ghost predicate HasDefinition(rule: Rule, name: string, trigger: Trigger, conditions: seq<Condition>, actions: seq<Action>) {
    rule.name == name && rule.trigger == trigger && rule.conditions == conditions && rule.actions == actions
  }

  ghost predicate SameDefinition(a: Rule, b: Rule) {
    HasDefinition(b, a.name, a.trigger, a.conditions, a.actions)
  }

  /** A live rule at the revision the request names is now one further; its number and creation stay. */
  ghost predicate IsNextRevision(before: RuleTable, ruleId: string, expected: int, rule: Rule) {
    && ruleId in before && before[ruleId].Live() && before[ruleId].organizationId == rule.organizationId
    && before[ruleId].revision == expected && rule.revision == expected + 1
    && before[ruleId].rowSeq == rule.rowSeq && before[ruleId].createdAt == rule.createdAt
  }

  lemma ChangedRuleIsAsked(rules: RuleTable, request: Request, clock: Time, now: Time, rowSeq: int)
    requires ChangedRule(rules, request, clock, now, rowSeq).Ok?
    ensures var (rule, next) := ChangedRule(rules, request, clock, now, rowSeq).value;
            && IsAsked(rules, request, now, rowSeq, rule)
            && InitialNextFire(rule.trigger, rule.enabled, clock) == Ok(next)
  {
    hide FirstFire, NameTaken;
  }

  /** A command that commits leaves the row it asked for and no other changed, armed at its first fire if it is to be
      armed, and answers and keeps that row as its response. */
  lemma CommandWrites(db: Db, op: Op)
    requires Enabled(db, op) && Commits(db, op)
    requires Inv(db)
    ensures var r, after := op.request.ruleId, Apply(db, op);
            && r in after.rules && after.rules == db.rules[r := after.rules[r]]
            && IsAsked(db.rules, op.request, op.now, op.rowSeq, after.rules[r])
            && (InRange(after.rules[r].trigger, op.clock) ==>
                  exists next :: IsArming(after.rules[r].trigger, after.rules[r].enabled, op.clock, next) && after.rules[r].nextFireAt == StoredOption(next))
    ensures var response := if op.request.DeleteRequest? then Deleted else RuleResponse(op.request.ruleId, Apply(db, op).rules[op.request.ruleId]);
            && HandleCommand(db, op.scope, op.request, op.clock, op.now, op.rowSeq).reply == Ok(response)
            && Apply(db, op).commands == db.commands[op.scope := Command(op.request, Some(response))]
  {
    hide Inv, ValidRequest, ChangedRule, IsAsked, InitialNextFire, IsArming, InRange, ReplacePendingSchedule;
    CommitFacts(db, op);
    ChangedRuleIsAsked(db.rules, op.request, op.clock, op.now, op.rowSeq);
    var (rule, next) := ChangedRule(db.rules, op.request, op.clock, op.now, op.rowSeq).value;
    InvariantNames(db);
    ChangedRuleFacts(db.rules, op.request, op.clock, op.now, op.rowSeq);
    StepKeepsInvariant(db, op);
    if InRange(rule.trigger, op.clock) {
      CommittedIsValid(Apply(db, op), op.request.ruleId);
      InitialNextFireIff(rule.trigger, rule.enabled, op.clock, next);
    }
  }

  lemma CommittedIsValid(db: Db, r: string)
    requires r in db.rules
    requires Inv(db)
    ensures ValidTrigger(db.rules[r].trigger)
  {
    hide References, Ledger, DispatchKeys, TriggersOk, IntakeOk, Leases, ReceiptsOk, NamesOk, CommandsOk, SnapshotsValid,
         ValidTrigger;
  }

  // ----- deletion -----

  /** Nothing finds this row: no listing, no event and no timer; it is disabled and has no next fire. */
  ghost predicate Gone(rule: Rule) {
    && !rule.Live() && !rule.enabled && rule.nextFireAt.None?
    && (forall organizationId, enabled :: !Listed(rule, organizationId, enabled))
    && (forall event :: !EventMatches(rule, event))
  }

  /** A rule once deleted is gone for good. Its row never changes again, whatever the run does; commands that ask for
      it find none, and no timer is accepted for it. */
  lemma DeletedRulesAreGone(states: seq<Db>, ops: seq<Op>, i: nat, j: nat, scope: Scope, request: Request, clock: Time, now: Time,
                            rowSeq: int)
    requires Run(states, ops) && i < |ops| && i < j < |states| && Commits(states[i], ops[i]) && ops[i].request.DeleteRequest?
    requires request.ruleId == ops[i].request.ruleId && scope !in states[j].commands && ValidRequest(request, scope.idempotencyKey)
    requires Inv(states[0])
    ensures var r := request.ruleId;
            && r in states[j].rules && states[j].rules[r] == states[i + 1].rules[r]
            && states[j].rules[r].deletedAt == Some(ops[i].now) && Gone(states[j].rules[r])
            && (forall organizationId, scheduledFor :: !TimerAccepted(states[j].rules, organizationId, r, scheduledFor))
    ensures var tx := HandleCommand(states[j], scope, request, clock, now, rowSeq);
            && tx.db == states[j] && tx.reply.Err?
            && (!request.CreateRequest? ==> tx.reply == Err(NotFound))
  {
    hide Inv, Enabled, Apply, Commits, ValidRequest, ExecutionsLater, AttemptsLater, ReceiptsLater, DispatchesLater, EventMatches,
         HandleCommand, IsArming;
    InvariantOverRuns(states, ops, i);
    CommandWrites(states[i], ops[i]);
    InvariantOverRuns(states, ops, i + 1);
    LaterOverRuns(states, ops, i + 1, j);
    var r := request.ruleId;
    UnarmedOf(states[i + 1], r);
    GoneFromEvents(states[i + 1].rules[r]);
    RefusedForGone(states[j], scope, request, clock, now, rowSeq);
  }

  lemma UnarmedOf(db: Db, r: string)
    requires r in db.rules && !db.rules[r].Live()
    requires Inv(db)
    ensures db.rules[r].nextFireAt.None?
  {
    hide References, DispatchKeys, TriggersOk, IntakeOk, Leases, ReceiptsOk, NamesOk, CommandsOk, RulesValid, SnapshotsValid;
  }

  lemma GoneFromEvents(rule: Rule)
    requires !rule.Live()
    ensures forall event :: !EventMatches(rule, event)
  {
    hide ConditionsMatch;
  }

  lemma RefusedForGone(db: Db, scope: Scope, request: Request, clock: Time, now: Time, rowSeq: int)
    requires scope !in db.commands && ValidRequest(request, scope.idempotencyKey)
    requires request.ruleId in db.rules && !db.rules[request.ruleId].Live()
    ensures var tx := HandleCommand(db, scope, request, clock, now, rowSeq);
            tx.db == db && tx.reply.Err? && (!request.CreateRequest? ==> tx.reply == Err(NotFound))
  {
    hide ValidRequest, NameTaken, InitialNextFire;
  }

  /** No execution is ever created for it again. */
  lemma DeletedRulesRunNothing(states: seq<Db>, ops: seq<Op>, i: nat, j: nat, e: string)
    requires Run(states, ops) && i < j < |ops| && Commits(states[i], ops[i]) && ops[i].request.DeleteRequest?
    requires e !in states[j].executions && e in states[j + 1].executions
    requires Inv(states[0])
    ensures states[j + 1].executions[e].ruleId != ops[i].request.ruleId
  {
    hide Inv, Enabled, Apply, Commits, ExecutionsLater, AttemptsLater, ReceiptsLater, DispatchesLater, EventMatches, IsArming;
    InvariantOverRuns(states, ops, i);
    CommandWrites(states[i], ops[i]);
    InvariantOverRuns(states, ops, i + 1);
    LaterOverRuns(states, ops, i + 1, j);
    StepAccepts(states[j], ops[j], e);
  }

  /** Deleting a rule frees its name. */
  lemma DeletionFreesName(db: Db, op: Op, except: string)
    requires Enabled(db, op) && Commits(db, op) && op.request.DeleteRequest?
    requires Inv(db)
    ensures op.request.ruleId in db.rules
    ensures !NameTaken(Apply(db, op).rules, except, op.request.organizationId, db.rules[op.request.ruleId].name, None)
  {
    hide Inv, Enabled, Apply, IsArming;
    CommandWrites(db, op);
    InvariantNames(db);
    var r := op.request.ruleId;
    forall q | q in Apply(db, op).rules && q != r ensures !SameName(db.rules[q], db.rules[r]) {
    }
  }

  // ----- what a command answers -----

  /** The trigger and the enablement a command asks for. */
  function AskedTrigger(rules: RuleTable, request: Request): Trigger
    requires request.CreateRequest? || request.ruleId in rules
  {
    if request.CreateRequest? || request.UpdateRequest? then request.trigger else rules[request.ruleId].trigger
  }

  function AskedEnablement(rules: RuleTable, request: Request): bool
    requires request.CreateRequest? || request.ruleId in rules
  {
    match request
    case CreateRequest(_, _, _, enabled, _, _, _) => enabled
    case UpdateRequest(_, ruleId, _, _, _, _, _) => rules[ruleId].enabled
    case SetEnabledRequest(_, _, _, enabled) => enabled
    case DeleteRequest(_, _, _) => false
  }

  /** The name a command needs to be free of other live rules. */
  function AskedName(request: Request): Option<string> {
    if request.CreateRequest? || request.UpdateRequest? then Some(request.name) else None
  }

  ghost predicate Misses(rules: RuleTable, request: Request) {
    && !request.CreateRequest?
    && !(request.ruleId in rules && rules[request.ruleId].Live() && rules[request.ruleId].organizationId == request.organizationId)
  }

  /** The rule is there and can be armed as asked. */
  ghost predicate Reaches(rules: RuleTable, request: Request, clock: Time) {
    !Misses(rules, request) && !Unarmable(AskedTrigger(rules, request), AskedEnablement(rules, request), clock)
  }

  /** The identifier of a creation is new, and the revision of any other command is the current one. */
  ghost predicate IsCurrent(rules: RuleTable, request: Request) {
    if request.CreateRequest? then request.ruleId !in rules
    else request.ruleId in rules && rules[request.ruleId].revision == request.expectedRevision
  }

  ghost predicate LosesName(rules: RuleTable, request: Request) {
    exists q :: q in rules && q != request.ruleId && rules[q].Live() && rules[q].organizationId == request.organizationId
                && AskedName(request) == Some(rules[q].name)
  }

  /** The revision cannot be counted on, or another rule of that name was deleted at the very same instant. */
  ghost predicate Fails(rules: RuleTable, request: Request, now: Time)
    requires request.CreateRequest? || request.ruleId in rules
  {
    && !request.CreateRequest?
    && (|| request.expectedRevision == I64_MAX
        || (request.DeleteRequest? && NameTaken(rules, request.ruleId, request.organizationId, rules[request.ruleId].name, Some(now))))
  }

  /** What a new command with a valid request is answered, case by case; what is refused changes nothing. */
  ghost predicate Answers(rules: RuleTable, request: Request, clock: Time, now: Time, reply: Result<Response>) {
    && (reply == Err(NotFound) <==> Misses(rules, request))
    && (reply == Err(InvalidRequest) <==> !Misses(rules, request) && !Reaches(rules, request, clock))
    && (reply == Err(RuleIdConflict) <==> request.CreateRequest? && Reaches(rules, request, clock) && !IsCurrent(rules, request))
    && (reply == Err(RevisionConflict) <==> !request.CreateRequest? && Reaches(rules, request, clock) && !IsCurrent(rules, request))
    && (reply == Err(Runtime) <==> Reaches(rules, request, clock) && IsCurrent(rules, request) && Fails(rules, request, now))
    && (reply == Err(RuleNameConflict) <==>
          Reaches(rules, request, clock) && IsCurrent(rules, request) && !Fails(rules, request, now) && LosesName(rules, request))
    && (reply.Ok? <==>
          Reaches(rules, request, clock) && IsCurrent(rules, request) && !Fails(rules, request, now) && !LosesName(rules, request))
  }

  lemma CommandAnswers(db: Db, scope: Scope, request: Request, clock: Time, now: Time, rowSeq: int)
    requires scope !in db.commands && ValidRequest(request, scope.idempotencyKey)
    requires request.CreateRequest? || request.ruleId in db.rules ==> InRange(AskedTrigger(db.rules, request), clock)
    requires Inv(db)
    ensures var tx := HandleCommand(db, scope, request, clock, now, rowSeq);
            && Answers(db.rules, request, clock, now, tx.reply)
            && (tx.reply.Err? ==> tx.db == db) && (tx.reply.Ok? ==> scope in tx.db.commands)
  {
    hide Inv, Unarmable, ChangedRule, InRange, ReplacePendingSchedule, ValidRequest, Answers;
    if request.CreateRequest? || request.ruleId in db.rules {
      AskedIsValid(db, scope.idempotencyKey, request);
      InitialNextFireFails(AskedTrigger(db.rules, request), AskedEnablement(db.rules, request), clock);
    }
    ChangedRuleAnswers(db.rules, request, clock, now, rowSeq);
  }

  /** The answer of the statements between reservation and receipt. */
  function AnswerOf(request: Request, changed: Result<(Rule, Option<Time>)>): Result<Response> {
    match changed
    case Err(f) => Err(f)
    case Ok((rule, _)) => Ok(ResponseTo(request, rule))
  }

  lemma ChangedRuleAnswers(rules: RuleTable, request: Request, clock: Time, now: Time, rowSeq: int)
    requires request.CreateRequest? || request.ruleId in rules ==>
               var next := InitialNextFire(AskedTrigger(rules, request), AskedEnablement(rules, request), clock);
               && (next == Err(InvalidRequest) <==> Unarmable(AskedTrigger(rules, request), AskedEnablement(rules, request), clock))
               && (next == Err(InvalidRequest) || next.Ok?)
    ensures Answers(rules, request, clock, now, AnswerOf(request, ChangedRule(rules, request, clock, now, rowSeq)))
  {
    hide Unarmable, FirstFire;
    match request
    case CreateRequest(_, _, _, _, _, _, _) =>
    case UpdateRequest(_, _, _, _, _, _, _) =>
    case SetEnabledRequest(_, _, _, _) =>
    case DeleteRequest(_, _, _) =>
  }

  lemma AskedIsValid(db: Db, key: string, request: Request)
    requires ValidRequest(request, key) && (request.CreateRequest? || request.ruleId in db.rules)
    requires Inv(db)
    ensures ValidTrigger(AskedTrigger(db.rules, request))
  {
    hide Inv, ValidTrigger;
    if request.ruleId in db.rules {
      CommittedIsValid(db, request.ruleId);
    }
  }
}
