/** Trigger intake over runs: what creates an execution, what it snapshots, and what a duplicate answers. */
module Intakes {
  import opened Results
  import opened Schedule
  import opened Rules
  import opened Payloads
  import opened Targets
  import opened Keys
  import opened Tables
  import opened Transactions
  import opened Invariants
  import opened Preservation
  import opened Runs
  import opened Frames
  import opened History

  ghost predicate IsTimerExecution(db: Db, e: string) {
    e in db.executions && db.executions[e].triggerId in db.triggers && db.triggers[db.executions[e].triggerId].payload.TimerPayload?
  }

  /** The instant a timer execution was scheduled for. */
  ghost function SlotOf(db: Db, e: string): Time
    requires IsTimerExecution(db, e)
  {
    db.triggers[db.executions[e].triggerId].payload.scheduledFor
  }

  /** At most one execution exists per rule and scheduled instant, across organizations and deliveries. */
  lemma OneExecutionPerSlot(db: Db, e: string, f: string)
    requires IsTimerExecution(db, e) && IsTimerExecution(db, f)
    requires db.executions[e].ruleId == db.executions[f].ruleId && SlotOf(db, e) == SlotOf(db, f)
    requires Inv(db)
    ensures e == f
  {
    hide Ledger, DispatchKeys, Leases, ReceiptsOk, CommandsOk, NamesOk, RulesValid, SnapshotsValid, ScheduleKey;
    var s, t := db.executions[e].triggerId, db.executions[f].triggerId;
    assert TriggerOk(db.triggers[s]) && TriggerOk(db.triggers[t]);
    assert BelongsToTrigger(db.triggers, db.executions[e]) && BelongsToTrigger(db.triggers, db.executions[f]);
    assert ExecutionRefers(db.rules, db.triggers, db.executions[e]) && ExecutionRefers(db.rules, db.triggers, db.executions[f]);
    assert SameDelivery(db.triggers[s], db.triggers[t]);
    assert SameIntake(db.executions[e], db.executions[f]);
  }

  /** A new execution belongs to a live enabled rule, snapshots its actions, and was made by a trigger that
      came with it: an event the rule matches, or a timer for exactly the fire the rule is armed at. */
  ghost predicate Accepted(before: Db, after: Db, e: string) {
    && e !in before.executions && e in after.executions
    && var x := after.executions[e];
       && x.ruleId in before.rules && before.rules[x.ruleId].Live() && before.rules[x.ruleId].enabled
       && x == NewExecution(before, before.rules[x.ruleId].organizationId, x.ruleId, x.triggerId)
       && x.triggerId !in before.triggers && x.triggerId in after.triggers
       && match after.triggers[x.triggerId].payload
          case EventPayload(event) => EventMatches(before.rules[x.ruleId], event)
          case TimerPayload(_, ruleId, scheduledFor, _) =>
            ruleId == x.ruleId && before.rules[x.ruleId].Armable() && before.rules[x.ruleId].nextFireAt == Some(scheduledFor)
  }

  lemma EventAccepts(db: Db, event: Event, triggerId: string, matched: seq<(string, string)>, e: string)
    requires triggerId !in db.triggers && MatchedRows(db, event, matched)
    requires e !in db.executions && e in ReceiveEvent(db, event, triggerId, matched).db.executions
    ensures Accepted(db, ReceiveEvent(db, event, triggerId, matched).db, e)
    ensures exists i :: 0 <= i < |matched| && matched[i].1 == e
  {
    hide ConditionsMatch, Received, InsertExecution;
    var received := db.(triggers := db.triggers[triggerId := EventReceipt(event)]);
    MatchedFacts(db, event, matched);
    InsertExecutionsFrame(received, event.organizationId, triggerId, matched, |matched|);
    if i :| 0 <= i < |matched| && matched[i].1 == e {
      InsertedRow(received, event.organizationId, triggerId, matched, |matched|, i);
    } else {
      InsertedNothingElse(received, event.organizationId, triggerId, matched, |matched|, e);
      assert false;
    }
  }

  /** What a timer intake can make of the executions: nothing, or one for the armed slot of its rule. */
  lemma TimerTables(db: Db, organizationId: string, ruleId: string, dedupeKey: Key, scheduledFor: Time, triggerId: string,
                    executionId: string)
    ensures var after := ReceiveTimer(db, organizationId, ruleId, dedupeKey, scheduledFor, triggerId, executionId).db;
            || after.executions == db.executions
            || (TimerAccepted(db.rules, organizationId, ruleId, scheduledFor)
                && after.triggers == db.triggers[triggerId := TimerReceipt(organizationId, ruleId, dedupeKey, scheduledFor)]
                && after.executions == db.executions[executionId := NewExecution(db, organizationId, ruleId, triggerId)])
  {
    hide Received, ScheduleKey, NewReceipts;
  }

  lemma TimerAccepts(db: Db, organizationId: string, ruleId: string, dedupeKey: Key, scheduledFor: Time,
                     triggerId: string, executionId: string, e: string)
    requires triggerId !in db.triggers && executionId !in db.executions
    requires e !in db.executions && e in ReceiveTimer(db, organizationId, ruleId, dedupeKey, scheduledFor, triggerId, executionId).db.executions
    ensures Accepted(db, ReceiveTimer(db, organizationId, ruleId, dedupeKey, scheduledFor, triggerId, executionId).db, e)
    ensures e == executionId
  {
    hide ReceiveTimer, ScheduleKey;
    TimerTables(db, organizationId, ruleId, dedupeKey, scheduledFor, triggerId, executionId);
  }

  lemma StepAccepts(db: Db, op: Op, e: string)
    requires Enabled(db, op) && e !in db.executions && e in Apply(db, op).executions
    ensures Accepted(db, Apply(db, op), e)
  {
    hide Accepted, HandleCommand, ReceiveEvent, ReceiveTimer, CompleteExecution, ReleaseExecution, ClaimExecutions,
         MatchedRows, PickedRows;
    match op
    case ReceiveEventOp(event, triggerId, matched) => EventAccepts(db, event, triggerId, matched, e);
    case ReceiveTimerOp(organizationId, ruleId, dedupeKey, scheduledFor, triggerId, executionId) =>
      TimerAccepts(db, organizationId, ruleId, dedupeKey, scheduledFor, triggerId, executionId, e);
    case _ => OnlyIntakeCreates(db, op);
  }

  /** Every execution of every reachable state was accepted at one earlier step, and still has the actions its
      rule had there, whatever happened to the rule since. */
  lemma {:induction false} SnapshotsSurviveRuns(states: seq<Db>, ops: seq<Op>, j: nat, e: string) returns (i: nat)
    requires Run(states, ops) && j < |states| && e in states[j].executions && states[0] == EMPTY
    ensures i < j && Accepted(states[i], states[i + 1], e)
    ensures states[j].executions[e].ruleId == states[i + 1].executions[e].ruleId
    ensures states[j].executions[e].ruleId in states[i].rules
    ensures states[j].executions[e].actions == states[i].rules[states[j].executions[e].ruleId].actions
  {
    hide Inv, Enabled, Apply, EventMatches;
    if e in states[j - 1].executions {
      i := SnapshotsSurviveRuns(states, ops, j - 1, e);
    } else {
      i := j - 1;
      StepAccepts(states[i], ops[i], e);
    }
    EmptyDatabase();
    ExecutionOverRuns(states, ops, i + 1, j, e);
  }

  /** Every action of every timer execution reaches a dependency, on the target it names: none is ever refused for
      a missing target, comment body or organization, or for its index. */
  lemma TimerExecutionsResolve(db: Db, e: string, index: nat)
    requires IsTimerExecution(db, e) && index < |db.executions[e].actions|
    requires Inv(db)
    ensures var action, payload := db.executions[e].actions[index], db.triggers[db.executions[e].triggerId].payload;
            && ExplicitTarget(action).Some?
            && Resolve(index, action, PayloadJson(payload)) == Target(db.executions[e].organizationId, ExplicitTarget(action).value)
  {
    hide Ledger, DispatchKeys, Leases, ReceiptsOk, CommandsOk, NamesOk, RulesValid, ScheduleKey, Resolve, PayloadJson,
         ValidAction;
    assert SnapshotValid(db.triggers, db.executions[e]) && TriggerOk(db.triggers[db.executions[e].triggerId]);
    assert ExecutionRefers(db.rules, db.triggers, db.executions[e]);
    ScheduledActionsResolve(Trigger(OnSchedule, [], None, None), db.executions[e].actions, db.triggers[db.executions[e].triggerId].payload, index);
  }

  // ----- events -----

  /** The rules an event fires, in the typed vocabulary. */
  ghost predicate Fires(rule: Rule, event: Event) {
    && rule.Live() && rule.enabled && rule.organizationId == event.organizationId && rule.trigger.kind.OnEvent?
    && event.eventType in rule.trigger.eventTypes && forall c :: c in rule.conditions ==> Holds(c, event)
  }

  lemma FiresIsEventMatches(rule: Rule, event: Event)
    ensures Fires(rule, event) <==> EventMatches(rule, event)
  {
    hide ConditionsMatch, Holds;
    ConditionsAgree(rule.conditions, event);
  }

  /** The delivery as it was received: nobody's timer, with the event as its payload. */
  ghost predicate IsEventDelivery(t: TriggerReceipt, event: Event) {
    && t.organizationId == event.organizationId && t.source.EventSource? && t.dedupeKey == Other(event.dedupeKey) && t.ruleId.None?
    && t.payload == EventPayload(event) && t.occurredAt == Stored(event.occurredAt)
  }

  lemma EventIsStored(db: Db, event: Event, triggerId: string, matched: seq<(string, string)>)
    requires triggerId !in db.triggers && MatchedRows(db, event, matched)
    requires !Received(db.triggers, event.organizationId, EventSource, Other(event.dedupeKey))
    ensures var after := ReceiveEvent(db, event, triggerId, matched).db.triggers;
            triggerId in after && IsEventDelivery(after[triggerId], event) && after == db.triggers[triggerId := after[triggerId]]
  {
    hide Received, EventMatches, InsertExecution;
    MatchedFacts(db, event, matched);
    InsertExecutionsFrame(db.(triggers := db.triggers[triggerId := EventReceipt(event)]), event.organizationId, triggerId, matched, |matched|);
  }

  /** The first delivery of an event creates exactly one execution for each rule it fires, and no other. */
  lemma EventIntakeIsExact(db: Db, event: Event, triggerId: string, matched: seq<(string, string)>, r: string)
    requires triggerId !in db.triggers && MatchedRows(db, event, matched)
    requires !Received(db.triggers, event.organizationId, EventSource, Other(event.dedupeKey))
    ensures var tx := ReceiveEvent(db, event, triggerId, matched);
            && tx.reply.Ok? && tx.reply.value.accepted && !tx.reply.value.duplicate
            && tx.reply.value.executionIds == tx.db.executions.Keys - db.executions.Keys
            && (forall e :: e in tx.reply.value.executionIds ==> tx.db.executions[e].triggerId == triggerId)
            && (r in db.rules && Fires(db.rules[r], event)
                <==> exists e :: e in tx.reply.value.executionIds && tx.db.executions[e].ruleId == r)
            && (forall e, f :: e in tx.reply.value.executionIds && f in tx.reply.value.executionIds && e != f
                 ==> tx.db.executions[e].ruleId != tx.db.executions[f].ruleId)
  {
    hide ConditionsMatch, Holds, InsertExecution, Received, Fires, EventMatches;
    var tx := ReceiveEvent(db, event, triggerId, matched);
    var received := db.(triggers := db.triggers[triggerId := EventReceipt(event)]);
    MatchedFacts(db, event, matched);
    forall i | 0 <= i < |matched|
      ensures matched[i].1 in tx.db.executions && tx.db.executions[matched[i].1].ruleId == matched[i].0
      ensures tx.db.executions[matched[i].1].triggerId == triggerId
    {
      InsertedRow(received, event.organizationId, triggerId, matched, |matched|, i);
    }
    forall e ensures e in tx.reply.value.executionIds <==> e in tx.db.executions && e !in db.executions {
      if e in tx.db.executions && e !in db.executions {
        EventAccepts(db, event, triggerId, matched, e);
        var i :| 0 <= i < |matched| && matched[i].1 == e;
        assert matched[i] in matched;
      }
    }
    if r in db.rules && Fires(db.rules[r], event) {
      FiresIsEventMatches(db.rules[r], event);
      assert r in MatchingRules(db.rules, event);
      var i :| 0 <= i < |matched| && matched[i].0 == r;
      assert matched[i] in matched;
    }
    if e :| e in tx.reply.value.executionIds && tx.db.executions[e].ruleId == r {
      var i :| 0 <= i < |matched| && matched[i].1 == e;
      FiresIsEventMatches(db.rules[r], event);
    }
  }

  // ----- timers -----

  /** The delivery as it was received, for its rule and instant. */
  ghost predicate IsTimerDelivery(t: TriggerReceipt, organizationId: string, ruleId: string, scheduledFor: Time) {
    && t.organizationId == organizationId && t.source.TimerSource? && t.ruleId == Some(ruleId)
    && t.dedupeKey == ScheduleKey(ruleId, scheduledFor) && t.occurredAt == Stored(scheduledFor)
    && t.payload == TimerPayload(organizationId, ruleId, scheduledFor, ScheduleKey(ruleId, scheduledFor))
  }

  /** The rule has its next fire at this very instant. */
  ghost predicate Awaits(rules: RuleTable, organizationId: string, ruleId: string, scheduledFor: Time) {
    ruleId in rules && rules[ruleId].organizationId == organizationId && rules[ruleId].nextFireAt == Some(scheduledFor)
  }

  lemma AwaitsIsAccepted(db: Db, organizationId: string, ruleId: string, scheduledFor: Time)
    requires Inv(db)
    ensures Awaits(db.rules, organizationId, ruleId, scheduledFor) <==> TimerAccepted(db.rules, organizationId, ruleId, scheduledFor)
  {
    hide References, DispatchKeys, TriggersOk, IntakeOk, Leases, ReceiptsOk, NamesOk, CommandsOk, RulesValid, SnapshotsValid;
  }

  /** A timer is refused for a foreign key or, unless it was received before, an unknown rule; and then, as for a
      duplicate, nothing changes. */
  lemma TimerAnswers(db: Db, organizationId: string, ruleId: string, dedupeKey: Key, scheduledFor: Time, triggerId: string,
                     executionId: string)
    ensures var tx := ReceiveTimer(db, organizationId, ruleId, dedupeKey, scheduledFor, triggerId, executionId);
            var first := !Received(db.triggers, organizationId, TimerSource, dedupeKey);
            && (tx.reply == Err(InvalidRequest) <==> dedupeKey != ScheduleKey(ruleId, scheduledFor))
            && (tx.reply == Err(Runtime) <==> dedupeKey == ScheduleKey(ruleId, scheduledFor) && first && ruleId !in db.rules)
            && (tx.reply.Err? ==> tx.db == db && (tx.reply == Err(InvalidRequest) || tx.reply == Err(Runtime)))
            && (tx.reply.Ok? ==> (tx.reply.value.duplicate <==> !first))
            && (tx.reply.Ok? && !first ==> tx.db == db)
  {
    hide Received, ScheduleKey, InsertExecution, TimerAccepted, ExecutionsFor, TimerReceipt;
  }

  /** A first delivery is stored, and exactly if its rule awaits that instant it is accepted, with one execution, that
      rule's. */
  lemma TimerIntakeIsExact(db: Db, organizationId: string, ruleId: string, dedupeKey: Key, scheduledFor: Time, triggerId: string,
                           executionId: string)
    requires triggerId !in db.triggers && executionId !in db.executions
    requires dedupeKey == ScheduleKey(ruleId, scheduledFor) && ruleId in db.rules
    requires !Received(db.triggers, organizationId, TimerSource, dedupeKey)
    requires Inv(db)
    ensures var tx := ReceiveTimer(db, organizationId, ruleId, dedupeKey, scheduledFor, triggerId, executionId);
            && tx.reply.Ok? && !tx.reply.value.duplicate
            && triggerId in tx.db.triggers && IsTimerDelivery(tx.db.triggers[triggerId], organizationId, ruleId, scheduledFor)
            && tx.db.triggers == db.triggers[triggerId := tx.db.triggers[triggerId]]
            && (tx.reply.value.accepted <==> Awaits(db.rules, organizationId, ruleId, scheduledFor))
            && tx.reply.value.executionIds == tx.db.executions.Keys - db.executions.Keys
            && tx.reply.value.executionIds == (if tx.reply.value.accepted then {executionId} else {})
            && (tx.reply.value.accepted ==>
                  tx.db.executions[executionId].ruleId == ruleId && tx.db.executions[executionId].triggerId == triggerId)
  {
    hide Inv, Received, ScheduleKey, ReceiveTimer, TimerAccepted, Awaits;
    AwaitsIsAccepted(db, organizationId, ruleId, scheduledFor);
    TimerAnswers(db, organizationId, ruleId, dedupeKey, scheduledFor, triggerId, executionId);
    FirstTimerTables(db, organizationId, ruleId, dedupeKey, scheduledFor, triggerId, executionId);
  }

  // ----- duplicates -----

  lemma ReceiptIsUnique(db: Db, s: string, t: string)
    requires s in db.triggers && t in db.triggers && SameDelivery(db.triggers[s], db.triggers[t])
    requires Inv(db)
    ensures s == t
  {
    hide References, Ledger, DispatchKeys, IntakeOk, Leases, ReceiptsOk, CommandsOk, NamesOk, RulesValid, SnapshotsValid;
  }

  lemma StepKeepsDelivery(db: Db, op: Op, organizationId: string, source: Source, key: Key)
    requires Enabled(db, op) && Received(db.triggers, organizationId, source, key)
    requires Inv(db)
    ensures Received(Apply(db, op).triggers, organizationId, source, key)
    ensures ExecutionsFor(Apply(db, op), organizationId, source, key) == ExecutionsFor(db, organizationId, source, key)
  {
    hide Inv, Enabled, Apply, EventMatches, NewExecution;
    var after := Apply(db, op);
    StepIsLater(db, op);
    StepKeepsInvariant(db, op);
    ExecutionsReferTriggers(db);
    var t :| t in db.triggers && IsReceipt(db.triggers[t], organizationId, source, key);
    assert after.triggers[t] == db.triggers[t];
    forall e ensures e in ExecutionsFor(after, organizationId, source, key) <==> e in ExecutionsFor(db, organizationId, source, key) {
      if e in db.executions {
        assert ExecutionLater(db.executions[e], after.executions[e]);
      } else if e in ExecutionsFor(after, organizationId, source, key) {
        StepAccepts(db, op, e);
        ReceiptIsUnique(after, t, after.executions[e].triggerId);
        assert false;
      }
    }
  }

  lemma ExecutionsReferTriggers(db: Db)
    requires Inv(db)
    ensures forall e :: e in db.executions ==> db.executions[e].triggerId in db.triggers
  {
    hide Ledger, DispatchKeys, IntakeOk, Leases, ReceiptsOk, CommandsOk, NamesOk, RulesValid, SnapshotsValid;
    assert forall e :: e in db.executions ==> ExecutionRefers(db.rules, db.triggers, db.executions[e]);
  }

  /** What was received stays received, with the same executions, in every later state. */
  lemma {:induction false} DeliveriesAreStable(states: seq<Db>, ops: seq<Op>, i: nat, j: nat, organizationId: string,
                                               source: Source, key: Key)
    requires Run(states, ops) && i <= j < |states| && Received(states[i].triggers, organizationId, source, key)
    requires Inv(states[0])
    ensures Received(states[j].triggers, organizationId, source, key)
    ensures ExecutionsFor(states[j], organizationId, source, key) == ExecutionsFor(states[i], organizationId, source, key)
    decreases j - i
  {
    hide Inv, Enabled, Apply, Received, ExecutionsFor;
    if i < j {
      DeliveriesAreStable(states, ops, i, j - 1, organizationId, source, key);
      InvariantOverRuns(states, ops, j - 1);
      StepKeepsDelivery(states[j - 1], ops[j - 1], organizationId, source, key);
    }
  }

  lemma FirstEventDelivery(db: Db, event: Event, triggerId: string, matched: seq<(string, string)>)
    requires triggerId !in db.triggers && MatchedRows(db, event, matched)
    requires !Received(db.triggers, event.organizationId, EventSource, Other(event.dedupeKey))
    requires Inv(db)
    ensures var tx := ReceiveEvent(db, event, triggerId, matched);
            && Received(tx.db.triggers, event.organizationId, EventSource, Other(event.dedupeKey))
            && ExecutionsFor(tx.db, event.organizationId, EventSource, Other(event.dedupeKey)) == tx.reply.value.executionIds
  {
    hide Inv, ConditionsMatch, InsertExecution, Received, EventMatches;
    var tx := ReceiveEvent(db, event, triggerId, matched);
    var key := Other(event.dedupeKey);
    var received := db.(triggers := db.triggers[triggerId := EventReceipt(event)]);
    MatchedFacts(db, event, matched);
    ExecutionsReferTriggers(db);
    InsertExecutionsFrame(received, event.organizationId, triggerId, matched, |matched|);
    EventFirst(db, tx.db, event, triggerId);
    forall e ensures e in ExecutionsFor(tx.db, event.organizationId, EventSource, key) <==> e in tx.reply.value.executionIds {
      if i :| 0 <= i < |matched| && matched[i].1 == e {
        InsertedRow(received, event.organizationId, triggerId, matched, |matched|, i);
        assert matched[i] in matched;
      } else {
        InsertedNothingElse(received, event.organizationId, triggerId, matched, |matched|, e);
        if e in db.executions && db.executions[e].triggerId in db.triggers {
          NotReceived(db.triggers, event.organizationId, EventSource, key, db.executions[e].triggerId);
        }
      }
    }
  }

  lemma NotReceived(triggers: Triggers, organizationId: string, source: Source, key: Key, t: string)
    requires !Received(triggers, organizationId, source, key) && t in triggers
    ensures !IsReceipt(triggers[t], organizationId, source, key)
  {
  }

  lemma EventFirst(db: Db, after: Db, event: Event, triggerId: string)
    requires after.triggers == db.triggers[triggerId := EventReceipt(event)]
    ensures Received(after.triggers, event.organizationId, EventSource, Other(event.dedupeKey))
  {
    assert IsReceipt(after.triggers[triggerId], event.organizationId, EventSource, Other(event.dedupeKey));
  }

  /** The answer to a timer that was not received before, and the tables it leaves. */
  lemma FirstTimerTables(db: Db, organizationId: string, ruleId: string, key: Key, scheduledFor: Time, triggerId: string,
                         executionId: string)
    requires !Received(db.triggers, organizationId, TimerSource, key)
    requires ReceiveTimer(db, organizationId, ruleId, key, scheduledFor, triggerId, executionId).reply.Ok?
    ensures var tx := ReceiveTimer(db, organizationId, ruleId, key, scheduledFor, triggerId, executionId);
            var accepted := TimerAccepted(db.rules, organizationId, ruleId, scheduledFor);
            && tx.reply.value == Intake(accepted, false, if accepted then {executionId} else {})
            && tx.db.triggers == db.triggers[triggerId := TimerReceipt(organizationId, ruleId, key, scheduledFor)]
            && tx.db.executions == if accepted then db.executions[executionId := NewExecution(db, organizationId, ruleId, triggerId)]
                                   else db.executions
  {
    hide Received, ScheduleKey, NewReceipts;
  }

  /** The executions of a delivery just stored are those that name it. */
  lemma ExecutionsOfNewDelivery(db: Db, after: Db, triggerId: string, organizationId: string, source: Source, key: Key)
    requires triggerId in after.triggers && IsReceipt(after.triggers[triggerId], organizationId, source, key)
    requires after.triggers == db.triggers[triggerId := after.triggers[triggerId]] && !Received(db.triggers, organizationId, source, key)
    ensures forall e :: e in ExecutionsFor(after, organizationId, source, key) <==> e in after.executions && after.executions[e].triggerId == triggerId
  {
    hide Received;
    forall e | e in after.executions && after.executions[e].triggerId in db.triggers
      ensures !IsReceipt(db.triggers[after.executions[e].triggerId], organizationId, source, key)
    {
      NotReceived(db.triggers, organizationId, source, key, after.executions[e].triggerId);
    }
  }

  lemma FirstTimerDelivery(db: Db, organizationId: string, ruleId: string, key: Key, scheduledFor: Time, triggerId: string,
                           executionId: string)
    requires triggerId !in db.triggers && executionId !in db.executions
    requires !Received(db.triggers, organizationId, TimerSource, key)
    requires ReceiveTimer(db, organizationId, ruleId, key, scheduledFor, triggerId, executionId).reply.Ok?
    requires Inv(db)
    ensures var tx := ReceiveTimer(db, organizationId, ruleId, key, scheduledFor, triggerId, executionId);
            && Received(tx.db.triggers, organizationId, TimerSource, key)
            && ExecutionsFor(tx.db, organizationId, TimerSource, key) == tx.reply.value.executionIds
  {
    hide Inv, Received, ReceiveTimer, ExecutionsFor, TimerAccepted;
    var after := ReceiveTimer(db, organizationId, ruleId, key, scheduledFor, triggerId, executionId).db;
    FirstTimerTables(db, organizationId, ruleId, key, scheduledFor, triggerId, executionId);
    IsReceived(after.triggers, organizationId, TimerSource, key, triggerId);
    ExecutionsOfNewDelivery(db, after, triggerId, organizationId, TimerSource, key);
    ExecutionsReferTriggers(db);
  }

  lemma IsReceived(triggers: Triggers, organizationId: string, source: Source, key: Key, t: string)
    requires t in triggers && IsReceipt(triggers[t], organizationId, source, key)
    ensures Received(triggers, organizationId, source, key)
  {
  }

  /** Every later duplicate of an event, in any run, answers the ids of the first delivery and changes nothing. */
  lemma DuplicateEventsRepeatTheAnswer(states: seq<Db>, ops: seq<Op>, i: nat, j: nat, event: Event,
                                       matched: seq<(string, string)>)
    requires Run(states, ops) && i < |ops| && i < j < |states| && ops[i].ReceiveEventOp?
    requires !Received(states[i].triggers, ops[i].event.organizationId, EventSource, Other(ops[i].event.dedupeKey))
    requires event.organizationId == ops[i].event.organizationId && event.dedupeKey == ops[i].event.dedupeKey
    requires MatchedRows(states[j], event, matched)
    requires Inv(states[0])
    ensures var first := ReceiveEvent(states[i], ops[i].event, ops[i].triggerId, ops[i].matched).reply.value.executionIds;
            ReceiveEvent(states[j], event, ops[i].triggerId, matched) == Tx(states[j], Ok(Intake(true, true, first)))
  {
    hide Inv, MatchedRows, Received, ExecutionsFor, InsertExecutions;
    InvariantOverRuns(states, ops, i);
    FirstEventDelivery(states[i], ops[i].event, ops[i].triggerId, ops[i].matched);
    DeliveriesAreStable(states, ops, i + 1, j, event.organizationId, EventSource, Other(event.dedupeKey));
  }

  /** So does every later duplicate of a timer, whether the first one was accepted or not. */
  lemma DuplicateTimersRepeatTheAnswer(states: seq<Db>, ops: seq<Op>, i: nat, j: nat, triggerId: string, executionId: string)
    requires Run(states, ops) && i < |ops| && i < j < |states| && ops[i].ReceiveTimerOp?
    requires !Received(states[i].triggers, ops[i].organizationId, TimerSource, ops[i].dedupeKey)
    requires ReceiveTimer(states[i], ops[i].organizationId, ops[i].ruleId, ops[i].dedupeKey, ops[i].scheduledFor, ops[i].triggerId, ops[i].executionId).reply.Ok?
    requires Inv(states[0])
    ensures var op := ops[i];
            var first := ReceiveTimer(states[i], op.organizationId, op.ruleId, op.dedupeKey, op.scheduledFor, op.triggerId, op.executionId).reply.value.executionIds;
            ReceiveTimer(states[j], op.organizationId, op.ruleId, op.dedupeKey, op.scheduledFor, triggerId, executionId)
            == Tx(states[j], Ok(Intake(true, true, first)))
  {
    hide Inv, Received, ExecutionsFor, ScheduleKey, InsertExecution, TimerAccepted;
    var op := ops[i];
    InvariantOverRuns(states, ops, i);
    FirstTimerDelivery(states[i], op.organizationId, op.ruleId, op.dedupeKey, op.scheduledFor, op.triggerId, op.executionId);
    DeliveriesAreStable(states, ops, i + 1, j, op.organizationId, TimerSource, op.dedupeKey);
  }

  /** A duplicate always answers that it was accepted; so the flag repeats the first answer exactly if the first
      delivery met the armed slot of its rule. */
  lemma DuplicateFlagAgreesIffAccepted(states: seq<Db>, ops: seq<Op>, i: nat, j: nat, triggerId: string, executionId: string)
    requires Run(states, ops) && i < j < |states| && i < |ops| && ops[i].ReceiveTimerOp?
    requires !Received(states[i].triggers, ops[i].organizationId, TimerSource, ops[i].dedupeKey)
    requires ReceiveTimer(states[i], ops[i].organizationId, ops[i].ruleId, ops[i].dedupeKey, ops[i].scheduledFor, ops[i].triggerId, ops[i].executionId).reply.Ok?
    requires Inv(states[0])
    ensures var op := ops[i];
            var first := ReceiveTimer(states[i], op.organizationId, op.ruleId, op.dedupeKey, op.scheduledFor, op.triggerId, op.executionId).reply;
            var later := ReceiveTimer(states[j], op.organizationId, op.ruleId, op.dedupeKey, op.scheduledFor, triggerId, executionId).reply;
            && later.Ok? && later.value.duplicate && later.value.executionIds == first.value.executionIds
            && (later.value.accepted == first.value.accepted
                <==> TimerAccepted(states[i].rules, op.organizationId, op.ruleId, op.scheduledFor))
  {
    hide Inv, Enabled, Apply, Received, ReceiveTimer, ExecutionsFor, TimerAccepted;
    var op := ops[i];
    DuplicateTimersRepeatTheAnswer(states, ops, i, j, triggerId, executionId);
    FirstTimerTables(states[i], op.organizationId, op.ruleId, op.dedupeKey, op.scheduledFor, op.triggerId, op.executionId);
  }
}
