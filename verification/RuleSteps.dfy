/** What single steps mean for one recurring rule: those that do not concern it, its timers, and its completions. */
module RuleSteps {
  import opened Results
  import opened Text
  import opened Schedule
  import opened Rules
  import opened Payloads
  import opened Targets
  import opened Keys
  import opened Tables
  import opened Transactions
  import opened Invariants
  import opened Preservation
  import opened Runs
  import opened Frames
  import opened Effects
  import opened History
  import opened Intakes
  import opened CommandLaws

  function ExecutionsOf(executions: Executions, r: string): set<string> {
    set e | e in executions && executions[e].ruleId == r
  }

  function IntervalOf(rule: Rule): int {
    if rule.trigger.intervalSeconds.Some? then rule.trigger.intervalSeconds.value else 0
  }

  /** A timer for the rule is a delivery of a payload handed to Jobs: slot, organization and key of a dispatch. */
  ghost predicate FromJobs(db: Db, op: Op, r: string) {
    op.ReceiveTimerOp? && op.ruleId == r ==>
      && (r, op.scheduledFor) in db.dispatches
      && op.organizationId == db.dispatches[(r, op.scheduledFor)].organizationId
      && op.dedupeKey == db.dispatches[(r, op.scheduledFor)].idempotencyKey
  }

  // ----- what a step can add -----

  /** The trigger an intake stores. */
  lemma StepRecords(db: Db, op: Op)
    requires Enabled(db, op)
    ensures var after := Apply(db, op).triggers;
            || after == db.triggers
            || (op.ReceiveEventOp? && after == db.triggers[op.triggerId := EventReceipt(op.event)])
            || (op.ReceiveTimerOp? && op.dedupeKey == ScheduleKey(op.ruleId, op.scheduledFor)
                && after == db.triggers[op.triggerId := TimerReceipt(op.organizationId, op.ruleId, op.dedupeKey, op.scheduledFor)])
  {
    hide Apply, Enabled;
    StepWrites(db, op);
    if op.ReceiveEventOp? {
      EventRecords(db, op);
    } else if op.ReceiveTimerOp? {
      TimerRecords(db, op);
    }
  }

  lemma EventRecords(db: Db, op: Op)
    requires op.ReceiveEventOp? && Enabled(db, op)
    ensures Apply(db, op).triggers == db.triggers || Apply(db, op).triggers == db.triggers[op.triggerId := EventReceipt(op.event)]
  {
    hide EventMatches, Received, InsertExecution;
    MatchedFacts(db, op.event, op.matched);
    InsertExecutionsFrame(db.(triggers := db.triggers[op.triggerId := EventReceipt(op.event)]), op.event.organizationId, op.triggerId, op.matched, |op.matched|);
  }

  lemma TimerRecords(db: Db, op: Op)
    requires op.ReceiveTimerOp? && Enabled(db, op)
    ensures var after := Apply(db, op).triggers;
            || after == db.triggers
            || (op.dedupeKey == ScheduleKey(op.ruleId, op.scheduledFor)
                && after == db.triggers[op.triggerId := TimerReceipt(op.organizationId, op.ruleId, op.dedupeKey, op.scheduledFor)])
  {
    hide Received, ScheduleKey, TimerAccepted, NewReceipts, HandleCommand, ReceiveEvent, ClaimExecutions, ReleaseExecution,
         CompleteExecution, MatchedRows, PickedRows;
  }

  /** A timer is received only by its own delivery. */
  lemma StepReceives(db: Db, op: Op, organizationId: string, r: string, t: Time)
    requires Enabled(db, op)
    requires Received(Apply(db, op).triggers, organizationId, TimerSource, ScheduleKey(r, t))
    ensures || Received(db.triggers, organizationId, TimerSource, ScheduleKey(r, t))
            || (op.ReceiveTimerOp? && op.organizationId == organizationId && op.ruleId == r && op.scheduledFor == t && op.dedupeKey == ScheduleKey(r, t))
  {
    hide Apply, Enabled, ScheduleKey;
    StepRecords(db, op);
    var s :| s in Apply(db, op).triggers && IsReceipt(Apply(db, op).triggers[s], organizationId, TimerSource, ScheduleKey(r, t));
    if s in db.triggers && Apply(db, op).triggers[s] == db.triggers[s] {
      IsReceived(db.triggers, organizationId, TimerSource, ScheduleKey(r, t), s);
    } else {
      KeysAreInjective(op.ruleId, op.scheduledFor, r, t);
    }
  }

  lemma ReceivedStays(a: Triggers, b: Triggers, organizationId: string, source: Source, key: Key)
    requires Received(a, organizationId, source, key) && Kept(a, b)
    ensures Received(b, organizationId, source, key)
  {
  }

  // ----- steps that do not concern the rule -----

  /** Nothing of the rule's schedule changed between two databases. */
  ghost predicate Undisturbed(a: Db, b: Db, r: string) {
    && r in a.rules && r in b.rules && b.rules[r] == a.rules[r]
    && (forall d :: d in b.dispatches && d.0 == r ==> d in a.dispatches)
    && (forall e :: e in ExecutionsOf(b.executions, r) <==> e in ExecutionsOf(a.executions, r))
    && (forall e :: e in ExecutionsOf(a.executions, r) ==>
          a.executions[e].triggerId == b.executions[e].triggerId && a.executions[e].Terminal() == b.executions[e].Terminal())
    && (forall t :: t in a.triggers ==> t in b.triggers && b.triggers[t] == a.triggers[t])
    && (forall t :: t in b.triggers && t !in a.triggers ==> b.triggers[t].ruleId != Some(r))
  }

  lemma CommandElsewhere(db: Db, op: Op, r: string)
    requires op.ManageOp? && Enabled(db, op) && r in db.rules && r in Apply(db, op).rules
    requires Apply(db, op).rules[r].revision == db.rules[r].revision
    requires Inv(db)
    ensures Undisturbed(db, Apply(db, op), r)
  {
    hide Inv, Apply, Enabled;
    StepWrites(db, op);
    StepRevision(db, op, r);
    CommitOrNothing(db, op);
    if Commits(db, op) {
      CommitFacts(db, op);
      CreatedIsNew(db, op, r);
      CommandDispatches(db, op, r);
    }
  }

  lemma CommandDispatches(db: Db, op: Op, r: string)
    requires Enabled(db, op) && Commits(db, op) && op.request.ruleId != r
    ensures forall d :: d in Apply(db, op).dispatches && d.0 == r ==> d in db.dispatches
  {
    hide ReplacePendingSchedule, ChangedRule, ValidRequest;
    var (rule, next) := ChangedRule(db.rules, op.request, op.clock, op.now, op.rowSeq).value;
    forall d | d in Apply(db, op).dispatches && d.0 == r ensures d in db.dispatches {
      DispatchAfter(db.dispatches, op.request.organizationId, op.request.ruleId, next, d);
    }
  }

  lemma CreatedIsNew(db: Db, op: Op, r: string)
    requires Enabled(db, op) && Commits(db, op) && r in db.rules && !Mutates(op.request, r)
    ensures op.request.ruleId != r
  {
    hide ValidRequest, ReplacePendingSchedule, InitialNextFire;
  }

  lemma OtherTimerElsewhere(db: Db, op: Op, r: string)
    requires op.ReceiveTimerOp? && Enabled(db, op) && op.ruleId != r && r in db.rules
    ensures Undisturbed(db, Apply(db, op), r)
  {
    hide Received, ScheduleKey, TimerAccepted, InsertExecution, Undisturbed;
    var after := Apply(db, op);
    var t := TimerReceipt(op.organizationId, op.ruleId, op.dedupeKey, op.scheduledFor);
    var received := db.(triggers := db.triggers[op.triggerId := t]);
    NothingElsewhere(db, r);
    ReceiptElsewhere(db, op.triggerId, t, r);
    if op.ruleId in db.rules {
      InsertElsewhere(db, received, op.organizationId, op.ruleId, op.triggerId, op.executionId, r);
    }
  }

  lemma NothingElsewhere(db: Db, r: string)
    requires r in db.rules
    ensures Undisturbed(db, db, r)
  {
  }

  lemma ReceiptElsewhere(db: Db, triggerId: string, t: TriggerReceipt, r: string)
    requires r in db.rules && triggerId !in db.triggers && t.ruleId != Some(r)
    ensures Undisturbed(db, db.(triggers := db.triggers[triggerId := t]), r)
  {
  }

  lemma InsertElsewhere(a: Db, b: Db, organizationId: string, ruleId: string, triggerId: string, executionId: string, r: string)
    requires Undisturbed(a, b, r) && executionId !in a.executions && executionId !in b.executions && ruleId != r && ruleId in b.rules
    ensures Undisturbed(a, InsertExecution(b, organizationId, ruleId, triggerId, b.rules[ruleId].actions, executionId), r)
  {
    hide NewReceipts;
  }

  lemma ClaimElsewhere(db: Db, op: Op, r: string)
    requires op.ClaimOp? && Enabled(db, op) && r in db.rules
    ensures Undisturbed(db, Apply(db, op), r)
  {
    hide Apply, Enabled, HoldsLease, ClaimedRow;
    StepWrites(db, op);
    OnlyIntakeCreates(db, op);
    forall e | e in db.executions
      ensures SameIdentity(db.executions[e], Apply(db, op).executions[e])
      ensures db.executions[e].Terminal() == Apply(db, op).executions[e].Terminal()
    {
      ClaimKeepsIdentity(db, op, e);
    }
  }

  lemma ClaimKeepsIdentity(db: Db, op: Op, e: string)
    requires op.ClaimOp? && Enabled(db, op) && e in db.executions && e in Apply(db, op).executions
    ensures SameIdentity(db.executions[e], Apply(db, op).executions[e])
    ensures db.executions[e].Terminal() == Apply(db, op).executions[e].Terminal()
  {
    hide Apply, Enabled, HoldsLease;
    ClaimMovesExecution(db, op, e);
  }

  lemma ReleaseElsewhere(db: Db, op: Op, r: string)
    requires op.ReleaseOp? && Enabled(db, op) && r in db.rules
    ensures Undisturbed(db, Apply(db, op), r)
  {
    hide Apply, Enabled;
    StepWrites(db, op);
    OnlyIntakeCreates(db, op);
    forall e | e in db.executions
      ensures SameIdentity(db.executions[e], Apply(db, op).executions[e])
      ensures db.executions[e].Terminal() == Apply(db, op).executions[e].Terminal()
    {
      ReleaseKeepsIdentity(db, op, e);
    }
  }

  lemma ReleaseKeepsIdentity(db: Db, op: Op, e: string)
    requires op.ReleaseOp? && Enabled(db, op) && e in db.executions && e in Apply(db, op).executions
    ensures SameIdentity(db.executions[e], Apply(db, op).executions[e])
    ensures db.executions[e].Terminal() == Apply(db, op).executions[e].Terminal()
  {
    hide Apply, Enabled;
    ReleaseMovesExecution(db, op, e);
  }

  lemma ReceiptsElsewhere(db: Db, op: Op, r: string)
    requires op.ActionStatusOp? || op.CompleteActionOp? || op.MarkEnqueuedOp? || op.MarkCancelledOp? || op.RecordFailureOp?
    requires Enabled(db, op) && r in db.rules
    ensures Undisturbed(db, Apply(db, op), r)
  {
    hide Apply, Enabled;
    StepWrites(db, op);
  }

  lemma EndElsewhere(db: Db, claim: Claim, status: ExecutionStatus, failure: Option<string>, r: string)
    requires claim.executionId in db.executions && db.executions[claim.executionId].ruleId != r && r in db.rules
    ensures Undisturbed(db, EndAttempt(db, claim, status, LastAttemptStatus(status), failure), r)
  {
  }

  lemma AdvanceDisturbsNothing(a: Db, b: Db, c: Db, r: string)
    requires Undisturbed(a, b, r) && c == b.(rules := c.rules, dispatches := c.dispatches)
    requires r in c.rules && c.rules[r] == b.rules[r] && forall d :: d in c.dispatches && d.0 == r ==> d in b.dispatches
    ensures Undisturbed(a, c, r)
  {
  }

  lemma CompletionElsewhere(db: Db, op: Op, r: string)
    requires op.CompleteOp? && Enabled(db, op) && op.claim.ruleId != r && r in db.rules
    ensures Undisturbed(db, Apply(db, op), r)
  {
    hide AdvanceSchedule, Undisturbed, EndAttempt;
    var claim := op.claim;
    NothingElsewhere(db, r);
    if HoldsLease(db.executions, claim, op.now) {
      var status := if op.succeeded then Succeeded else Failed;
      var ended := EndAttempt(db, claim, status, LastAttemptStatus(status), op.failure);
      EndElsewhere(db, claim, status, op.failure, r);
      EndFrame(db, claim, status, LastAttemptStatus(status), op.failure);
      if AdvanceSchedule(ended, claim.ruleId, claim.payload, op.now).Ok? {
        AdvanceElsewhere(ended, claim.ruleId, claim.payload, op.now, r);
        AdvanceDisturbsNothing(db, ended, AdvanceSchedule(ended, claim.ruleId, claim.payload, op.now).value, r);
      }
    }
  }

  lemma AdvanceElsewhere(db: Db, ruleId: string, payload: Payload, now: Time, r: string)
    requires ruleId != r && AdvanceSchedule(db, ruleId, payload, now).Ok?
    ensures var after := AdvanceSchedule(db, ruleId, payload, now).value;
            && after == db.(rules := after.rules, dispatches := after.dispatches)
            && (r in db.rules ==> r in after.rules && after.rules[r] == db.rules[r])
            && (forall d :: d in after.dispatches && d.0 == r ==> d in db.dispatches)
  {
    hide PayloadJson, ReplacePendingSchedule;
    var after := AdvanceSchedule(db, ruleId, payload, now).value;
    if after != db {
      var next := CheckedAddSeconds(db.rules[ruleId].nextFireAt.value, db.rules[ruleId].trigger.intervalSeconds.value);
      forall d | d in after.dispatches && d.0 == r ensures d in db.dispatches {
        DispatchAfter(db.dispatches, db.rules[ruleId].organizationId, ruleId, next, d);
      }
    }
  }

  lemma EventElsewhere(db: Db, op: Op, r: string)
    requires op.ReceiveEventOp? && Enabled(db, op) && r in db.rules && db.rules[r].trigger.kind.OnSchedule?
    ensures Undisturbed(db, Apply(db, op), r)
  {
    hide Apply, Enabled, HoldsLease, Accepted;
    StepWrites(db, op);
    StepRecords(db, op);
    EventIsNew(db, op);
    forall e ensures e in db.executions ==> e in Apply(db, op).executions && Apply(db, op).executions[e] == db.executions[e]
             ensures e in ExecutionsOf(Apply(db, op).executions, r) <==> e in ExecutionsOf(db.executions, r)
    {
      EventMovesExecution(db, op, e);
      if e !in db.executions && e in Apply(db, op).executions {
        EventExecutionIsOfEventRule(db, op, e);
      }
    }
  }

  lemma EventIsNew(db: Db, op: Op)
    requires op.ReceiveEventOp? && Enabled(db, op)
    ensures op.triggerId !in db.triggers
  {
    hide MatchedRows;
  }

  lemma EventExecutionIsOfEventRule(db: Db, op: Op, e: string)
    requires op.ReceiveEventOp? && Enabled(db, op) && e !in db.executions && e in Apply(db, op).executions
    ensures Apply(db, op).executions[e].ruleId in db.rules && db.rules[Apply(db, op).executions[e].ruleId].trigger.kind.OnEvent?
  {
    hide Apply, Enabled, ConditionsMatch;
    StepAccepts(db, op, e);
    StepRecords(db, op);
  }

  /** Every step that neither edits a scheduled rule, nor delivers a timer of it, nor completes an execution of it. */
  lemma StepElsewhere(db: Db, op: Op, r: string)
    requires Enabled(db, op) && r in db.rules && db.rules[r].trigger.kind.OnSchedule?
    requires r in Apply(db, op).rules && Apply(db, op).rules[r].revision == db.rules[r].revision
    requires (op.ReceiveTimerOp? ==> op.ruleId != r) && (op.CompleteOp? ==> op.claim.ruleId != r)
    requires Inv(db)
    ensures Undisturbed(db, Apply(db, op), r)
  {
    hide Inv, Enabled, Apply, Undisturbed;
    match op
    case ManageOp(_, _, _, _, _) => CommandElsewhere(db, op, r);
    case ReceiveEventOp(_, _, _) => EventElsewhere(db, op, r);
    case ReceiveTimerOp(_, _, _, _, _, _) => OtherTimerElsewhere(db, op, r);
    case ClaimOp(_, _, _, _, _, _) => ClaimElsewhere(db, op, r);
    case ReleaseOp(_, _, _) => ReleaseElsewhere(db, op, r);
    case CompleteOp(_, _, _, _) => CompletionElsewhere(db, op, r);
    case _ => ReceiptsElsewhere(db, op, r);
  }

  // ----- timers and completions of the rule -----

  lemma IgnoredTimer(db: Db, op: Op, r: string)
    requires op.ReceiveTimerOp? && Enabled(db, op) && op.ruleId == r
    requires op.dedupeKey != ScheduleKey(r, op.scheduledFor) || Received(db.triggers, op.organizationId, TimerSource, op.dedupeKey)
    ensures Apply(db, op) == db
  {
    hide ScheduleKey, Received;
  }

  lemma AcceptedTimer(db: Db, op: Op, r: string)
    requires op.ReceiveTimerOp? && Enabled(db, op) && op.ruleId == r
    requires op.dedupeKey == ScheduleKey(r, op.scheduledFor) && !Received(db.triggers, op.organizationId, TimerSource, op.dedupeKey)
    requires TimerAccepted(db.rules, op.organizationId, r, op.scheduledFor)
    ensures var receipt := TimerReceipt(op.organizationId, r, op.dedupeKey, op.scheduledFor);
            && Apply(db, op) == InsertExecution(db.(triggers := db.triggers[op.triggerId := receipt]), op.organizationId, r, op.triggerId,
                                                db.rules[r].actions, op.executionId)
            && ReceiveTimer(db, op.organizationId, r, op.dedupeKey, op.scheduledFor, op.triggerId, op.executionId).reply
               == Ok(Intake(true, false, {op.executionId}))
  {
    hide ScheduleKey, Received, InsertExecution;
  }

  lemma TimerPayloadTime(payload: Payload)
    requires payload.TimerPayload?
    ensures AsTime(Get(PayloadJson(payload), "scheduled_for")) == Some(payload.scheduledFor)
  {
  }

  /** A claim of another slot's execution completes without moving the rule. */
  lemma OtherSlotStays(db: Db, ruleId: string, payload: Payload, now: Time)
    requires payload.TimerPayload? && ruleId in db.rules && db.rules[ruleId].nextFireAt != Some(payload.scheduledFor)
    ensures AdvanceSchedule(db, ruleId, payload, now) == Ok(db)
  {
    hide PayloadJson, Get;
    TimerPayloadTime(payload);
  }

  lemma SourceTellsPayload(db: Db, t: string)
    requires t in db.triggers
    requires Inv(db)
    ensures db.triggers[t].source.TimerSource? <==> db.triggers[t].payload.TimerPayload?
  {
    hide References, Ledger, DispatchKeys, IntakeOk, Leases, ReceiptsOk, CommandsOk, NamesOk, RulesValid, SnapshotsValid;
    assert TriggerOk(db.triggers[t]);
  }

  /** A fenced completion of a timer execution ends it and advances its schedule, or does neither. */
  lemma CompletionResult(db: Db, op: Op)
    requires op.CompleteOp? && Enabled(db, op) && HoldsLease(db.executions, op.claim, op.now)
    requires op.claim.triggerId in db.triggers && db.triggers[op.claim.triggerId].source.TimerSource?
    ensures var ended := EndAttempt(db, op.claim, if op.succeeded then Succeeded else Failed,
                                    if op.succeeded then AttemptSucceeded else AttemptFailed, op.failure);
            var advanced := AdvanceSchedule(ended, op.claim.ruleId, op.claim.payload, op.now);
            Apply(db, op) == if advanced.Ok? then advanced.value else db
  {
    hide HandleCommand, ReceiveEvent, ReceiveTimer, ClaimExecutions, ReleaseExecution, MatchedRows, PickedRows,
         AdvanceSchedule, EndAttempt, HoldsLease;
  }

  lemma StaleCompletion(db: Db, op: Op)
    requires op.CompleteOp? && Enabled(db, op) && !HoldsLease(db.executions, op.claim, op.now)
    ensures Apply(db, op) == db
  {
    hide HoldsLease;
  }

  lemma CommitOrNothing(db: Db, op: Op)
    requires Enabled(db, op) && op.ManageOp?
    ensures Commits(db, op) || Apply(db, op) == db
    ensures Commits(db, op) ==> Apply(db, op).rules.Keys == db.rules.Keys + {op.request.ruleId}
    ensures Apply(db, op) == db.(commands := Apply(db, op).commands, rules := Apply(db, op).rules, dispatches := Apply(db, op).dispatches)
  {
    hide ChangedRule, ValidRequest, ReplacePendingSchedule;
  }

  lemma InvariantArmable(db: Db, r: string)
    requires r in db.rules && db.rules[r].Armable()
    requires Inv(db)
    ensures db.rules[r].nextFireAt.Some? && IntervalOf(db.rules[r]) > 0 && db.rules[r].trigger.intervalSeconds.Some?
    ensures ValidInterval(IntervalOf(db.rules[r]))
    ensures LiveDispatch(db.dispatches, r, db.rules[r].nextFireAt.value)
  {
    hide References, DispatchKeys, TriggersOk, IntakeOk, Leases, ReceiptsOk, CommandsOk, NamesOk, SnapshotsValid, ValidText,
         ValidConditions, ValidActionsForTrigger;
    var rule := db.rules[r];
    assert ValidRule(rule.name, rule.trigger, rule.conditions, rule.actions);
  }

  lemma UneditedBefore(states: seq<Db>, ops: seq<Op>, i: nat, n: nat, r: string)
    requires Run(states, ops) && i <= n && n + 1 < |states| && r in states[i].rules
    requires r in states[n + 1].rules && states[n + 1].rules[r].revision == states[i].rules[r].revision
    requires Inv(states[0])
    ensures r in states[n].rules && states[n].rules[r].revision == states[i].rules[r].revision
  {
    hide Inv, Enabled, Apply, ExecutionsLater, AttemptsLater, ReceiptsLater, DispatchesLater;
    LaterOverRuns(states, ops, i, n);
    LaterOverRuns(states, ops, n, n + 1);
    assert RuleLater(states[i].rules[r], states[n].rules[r]) && RuleLater(states[n].rules[r], states[n + 1].rules[r]);
  }

  lemma DispatchOrganization(db: Db, k: (string, Time))
    requires k in db.dispatches
    requires Inv(db)
    ensures k.0 in db.rules && db.dispatches[k].organizationId == db.rules[k.0].organizationId
  {
    hide Ledger, DispatchKeys, TriggersOk, IntakeOk, Leases, ReceiptsOk, CommandsOk, NamesOk, RulesValid, SnapshotsValid,
         ExecutionRefers;
  }

  /** An unfinished execution can be claimed, and its claim holds the lease. */
  lemma UnfinishedIsClaimable(db: Db, e: string, worker: string) returns (op: Op, claim: Claim)
    requires e in db.executions && !db.executions[e].Terminal() && db.executions[e].attempts < I32_MAX
    requires Inv(db)
    ensures op.ClaimOp? && Enabled(db, op)
    ensures claim.executionId == e && claim.ruleId == db.executions[e].ruleId && claim.triggerId == db.executions[e].triggerId && claim.triggerId in db.triggers
    ensures claim.payload == db.triggers[claim.triggerId].payload
    ensures Genuine(Apply(db, op), claim) && HoldsLease(Apply(db, op).executions, claim, op.now)
    ensures Apply(db, op) == db.(executions := Apply(db, op).executions, attempts := Apply(db, op).attempts)
    ensures Apply(db, op).executions.Keys == db.executions.Keys
    ensures SameIdentity(db.executions[e], Apply(db, op).executions[e])
    ensures forall f :: f in db.executions && f != e ==> Apply(db, op).executions[f] == db.executions[f]
  {
    hide Inv, Apply, Enabled;
    var row := db.executions[e];
    ExecutionsReferTriggers(db);
    LeaseTerms(db, e);
    var now := if row.status.Running? then row.leaseUntil.value + 1 else 0;
    op := ClaimOp(row.organizationId, worker, [e], 1, 60, now);
    claim := ClaimOf(db, e, worker);
    ClaimsOne(db, op, e);
  }

  lemma LeaseTerms(db: Db, e: string)
    requires e in db.executions
    requires Inv(db)
    ensures db.executions[e].status.Running? <==> db.executions[e].leaseUntil.Some?
    ensures db.executions[e].attempts >= 0
  {
    hide References, Ledger, DispatchKeys, TriggersOk, IntakeOk, ReceiptsOk, CommandsOk, NamesOk, RulesValid, SnapshotsValid;
    assert LeaseOk(e, db.executions[e], db.attempts);
  }

  // ----- fresh identifiers -----

  /** There is always a version 4 UUID that no row has. */
  lemma FreshId(used: set<string>) returns (id: string)
    ensures id !in used
  {
    var bound := LongerThan(used);
    id := seq(bound, _ => '0');
  }

  lemma {:induction false} LongerThan(used: set<string>) returns (bound: nat)
    ensures forall id :: id in used ==> |id| < bound
  {
    bound := 0;
    if used != {} {
      var id :| id in used;
      bound := LongerThan(used - {id});
      bound := if |id| < bound then bound else |id| + 1;
    }
  }
}
