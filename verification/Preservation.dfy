/** Every transaction keeps the invariant. */
module Preservation {
  import opened Results
  import opened Schedule
  import opened Rules
  import opened Payloads
  import opened Targets
  import opened Keys
  import opened Tables
  import opened Transactions
  import opened Invariants

  // ----- management commands -----

  lemma ArmedSlot(trigger: Trigger, enabled: bool, clock: Time)
    requires InitialNextFire(trigger, enabled, clock).Ok?
    ensures InitialNextFire(trigger, enabled, clock).value.Some? <==> enabled && trigger.kind.OnSchedule?
  {
  }

  /** One dispatch before and after a replacement: only the rule's own rows change, the armed slot is live,
      every other pending row of the rule is cancelled, and no row loses its organization or key. */
  lemma DispatchAfter(ds: Dispatches, organizationId: string, ruleId: string, next: Option<Time>, k: (string, Time))
    ensures var after := ReplacePendingSchedule(ds, organizationId, ruleId, next);
            var armed := k.0 == ruleId && Some(k.1) == StoredOption(next);
            && (k in after <==> k in ds || armed)
            && (k in ds && k.0 != ruleId ==> after[k] == ds[k])
            && (k in ds && k.0 == ruleId && !armed ==> after[k] == if ds[k].state.DispatchPending? then ds[k].(state := Cancelled) else ds[k])
            && (k in ds && armed ==> after[k] == if ds[k].state.Cancelled? then ds[k].(state := DispatchPending, lastFailure := None) else ds[k])
            && (k !in ds && armed ==> after[k] == Dispatch(organizationId, DispatchPending, 0, ScheduleKey(ruleId, next.value), None, None))
  {
  }

  lemma DispatchKeysAfter(ds: Dispatches, organizationId: string, ruleId: string, next: Option<Time>)
    requires DispatchKeys(ds)
    ensures DispatchKeys(ReplacePendingSchedule(ds, organizationId, ruleId, next))
  {
    var after := ReplacePendingSchedule(ds, organizationId, ruleId, next);
    forall k | k in after ensures KeyOfSlot(k, after[k].idempotencyKey) {
      DispatchAfter(ds, organizationId, ruleId, next, k);
      if k !in ds {
        assert Stored(next.value) == k.1;
      }
    }
  }

  lemma LedgerAfterReplacement(rules: RuleTable, ds: Dispatches, ruleId: string, rule: Rule, next: Option<Time>)
    requires Ledger(rules, ds)
    requires rule.nextFireAt == StoredOption(next) && (next.Some? <==> rule.Armable())
    ensures Ledger(rules[ruleId := rule], ReplacePendingSchedule(ds, rule.organizationId, ruleId, next))
  {
    var after, rules' := ReplacePendingSchedule(ds, rule.organizationId, ruleId, next), rules[ruleId := rule];
    forall k | k in after && after[k].state.DispatchPending? ensures k.0 in rules' && rules'[k.0].nextFireAt == Some(k.1) {
      DispatchAfter(ds, rule.organizationId, ruleId, next, k);
    }
    forall r | r in rules' && rules'[r].nextFireAt.Some? ensures LiveDispatch(after, r, rules'[r].nextFireAt.value) {
      DispatchAfter(ds, rule.organizationId, ruleId, next, (r, rules'[r].nextFireAt.value));
      assert r != ruleId ==> LiveDispatch(ds, r, rules[r].nextFireAt.value);
    }
  }

  /** What every successful command writes, whichever command it is. */
  lemma ChangedRuleFacts(rules: RuleTable, request: Request, clock: Time, now: Time, rowSeq: int)
    requires NamesOk(rules) && ChangedRule(rules, request, clock, now, rowSeq).Ok?
    ensures var (rule, next) := ChangedRule(rules, request, clock, now, rowSeq).value;
            && rule.organizationId == request.organizationId
            && rule.nextFireAt == StoredOption(next) && (next.Some? <==> rule.Armable())
            && !NameTaken(rules, request.ruleId, rule.organizationId, rule.name, rule.deletedAt)
  {
    var (rule, next) := ChangedRule(rules, request, clock, now, rowSeq).value;
    match request
    case CreateRequest(_, _, _, _, _, _, _) =>
    case UpdateRequest(_, _, _, _, _, _, _) =>
    case SetEnabledRequest(_, _, _, _) =>
    case DeleteRequest(_, _, _) =>
  }

  /** The mutating commands step a rule's revision by one from the revision they name; a creation starts at one. */
  ghost predicate Steps(rules: RuleTable, request: Request, rule: Rule) {
    if request.CreateRequest? then request.ruleId !in rules && rule.revision == 1
    else request.ruleId in rules && rules[request.ruleId].revision == request.expectedRevision && rule.revision == request.expectedRevision + 1
         && rules[request.ruleId].organizationId == request.organizationId
  }

  lemma MutationsAfterCommit(commands: Commands, rules: RuleTable, scope: Scope, c: Command, ruleId: string)
    requires CommandsOk(commands, rules) && scope !in commands
    ensures Mutates(c.request, ruleId) ==> |Mutations(commands[scope := c], ruleId)| == |Mutations(commands, ruleId)| + 1
    ensures !Mutates(c.request, ruleId) ==> Mutations(commands[scope := c], ruleId) == Mutations(commands, ruleId)
    ensures ruleId !in rules ==> Mutations(commands, ruleId) == {}
  {
    if Mutates(c.request, ruleId) {
      assert Mutations(commands[scope := c], ruleId) == Mutations(commands, ruleId) + {scope};
    }
    if ruleId !in rules {
      forall s | s in commands ensures !Mutates(commands[s].request, ruleId) {
        assert CommandOk(s, commands[s], rules);
      }
    }
  }

  lemma CommandsAfterCommit(commands: Commands, rules: RuleTable, scope: Scope, c: Command, rule: Rule)
    requires CommandsOk(commands, rules) && scope !in commands && scope.operation == OperationOf(c.request) && c.response.Some?
    requires Steps(rules, c.request, rule) && rule.organizationId == c.request.organizationId
    ensures CommandsOk(commands[scope := c], rules[c.request.ruleId := rule])
  {
    hide Mutations;
    var commands', rules' := commands[scope := c], rules[c.request.ruleId := rule];
    forall r | r in rules' ensures rules'[r].revision == 1 + |Mutations(commands', r)| {
      MutationsAfterCommit(commands, rules, scope, c, r);
    }
    forall s | s in commands' ensures CommandOk(s, commands'[s], rules') {
      assert s != scope ==> CommandOk(s, commands[s], rules);
    }
    forall s, t | s in commands' && t in commands' && SameStep(commands'[s].request, commands'[t].request) ensures s == t {
      assert s != scope ==> CommandOk(s, commands[s], rules);
      assert t != scope ==> CommandOk(t, commands[t], rules);
    }
  }

  /** A command keeps what is known of a rule: a valid definition, its organization, and a revision step. */
  lemma ChangedRuleSteps(rules: RuleTable, request: Request, clock: Time, now: Time, rowSeq: int, key: string)
    requires RulesValid(rules) && ValidRequest(request, key) && ChangedRule(rules, request, clock, now, rowSeq).Ok?
    ensures var rule := ChangedRule(rules, request, clock, now, rowSeq).value.0;
            Steps(rules, request, rule) && ValidRule(rule.name, rule.trigger, rule.conditions, rule.actions)
  {
    match request
    case CreateRequest(_, _, _, _, _, _, _) =>
    case UpdateRequest(_, _, _, _, _, _, _) =>
    case SetEnabledRequest(_, _, _, _) =>
    case DeleteRequest(_, _, _) =>
  }

  lemma ReferencesAfterCommit(db: Db, request: Request, rule: Rule, next: Option<Time>)
    requires References(db.rules, db.triggers, db.executions, db.dispatches)
    requires rule.organizationId == request.organizationId
    requires request.ruleId in db.rules ==> db.rules[request.ruleId].organizationId == request.organizationId
    ensures References(db.rules[request.ruleId := rule], db.triggers, db.executions,
                       ReplacePendingSchedule(db.dispatches, request.organizationId, request.ruleId, next))
  {
    var after := ReplacePendingSchedule(db.dispatches, request.organizationId, request.ruleId, next);
    var rules' := db.rules[request.ruleId := rule];
    forall k | k in after ensures k.0 in rules' && after[k].organizationId == rules'[k.0].organizationId {
      DispatchAfter(db.dispatches, request.organizationId, request.ruleId, next, k);
    }
    forall e | e in db.executions ensures ExecutionRefers(rules', db.triggers, db.executions[e]) {
      assert ExecutionRefers(db.rules, db.triggers, db.executions[e]);
    }
  }

  lemma NamesAfterCommit(rules: RuleTable, ruleId: string, rule: Rule)
    requires NamesOk(rules) && !NameTaken(rules, ruleId, rule.organizationId, rule.name, rule.deletedAt)
    ensures NamesOk(rules[ruleId := rule])
  {
    var rules' := rules[ruleId := rule];
    forall r, q | r in rules' && q in rules' && SameName(rules'[r], rules'[q]) ensures r == q {
      assert r != ruleId && q != ruleId ==> SameName(rules[r], rules[q]);
    }
  }

  lemma InvariantNames(db: Db)
    requires Inv(db)
    ensures NamesOk(db.rules)
  {
    hide NamesOk;
  }

  lemma RulesValidAfterCommit(rules: RuleTable, ruleId: string, rule: Rule)
    requires RulesValid(rules) && ValidRule(rule.name, rule.trigger, rule.conditions, rule.actions)
    ensures RulesValid(rules[ruleId := rule])
  {
    hide ValidRule;
  }

  lemma ManagementKeepsInvariant(db: Db, scope: Scope, request: Request, clock: Time, now: Time, rowSeq: int)
    requires Inv(db) && scope.operation == OperationOf(request)
    ensures Inv(HandleCommand(db, scope, request, clock, now, rowSeq).db)
  {
    hide References, Ledger, DispatchKeys, TriggersOk, IntakeOk, Leases, ReceiptsOk, CommandsOk, NamesOk, RulesValid,
         SnapshotsValid;
    if ValidRequest(request, scope.idempotencyKey) && ReserveCommand(db.commands, scope, request).New?
       && ChangedRule(db.rules, request, clock, now, rowSeq).Ok? {
      var (rule, next) := ChangedRule(db.rules, request, clock, now, rowSeq).value;
      ChangedRuleFacts(db.rules, request, clock, now, rowSeq);
      ChangedRuleSteps(db.rules, request, clock, now, rowSeq, scope.idempotencyKey);
      ReferencesAfterCommit(db, request, rule, next);
      LedgerAfterReplacement(db.rules, db.dispatches, request.ruleId, rule, next);
      DispatchKeysAfter(db.dispatches, request.organizationId, request.ruleId, next);
      CommandsAfterCommit(db.commands, db.rules, scope, Command(request, Some(ResponseTo(request, rule))), rule);
      NamesAfterCommit(db.rules, request.ruleId, rule);
      RulesValidAfterCommit(db.rules, request.ruleId, rule);
    }
  }

  // ----- trigger intake -----

  lemma NewReceiptsContents(executionId: string, actions: seq<Action>, k: (string, int))
    ensures k in NewReceipts(executionId, actions) <==> k.0 == executionId && 0 <= k.1 < |actions|
    ensures k in NewReceipts(executionId, actions) ==>
              NewReceipts(executionId, actions)[k] == ActionReceipt(actions[k.1].kind, ActionPending, 0, ActionKey(executionId, k.1), None, None)
  {
    if k.0 == executionId && 0 <= k.1 < |actions| {
      assert k == (executionId, k.1);
    }
  }

  lemma ReceiptsAfterInsert(executions: Executions, receipts: Receipts, id: string, e: Execution)
    requires ReceiptsOk(executions, receipts) && id !in executions
    ensures ReceiptsOk(executions[id := e], receipts + NewReceipts(id, e.actions))
  {
    var executions', receipts' := executions[id := e], receipts + NewReceipts(id, e.actions);
    forall k | k in receipts' ensures k.0 in executions' && ReceiptFor(executions'[k.0], k, receipts'[k]) {
      NewReceiptsContents(id, e.actions, k);
    }
    forall f, i | f in executions' && 0 <= i < |executions'[f].actions| ensures (f, i) in receipts' {
      NewReceiptsContents(id, e.actions, (f, i));
    }
  }

  lemma LeasesAfterInsert(executions: Executions, attempts: Attempts, id: string, e: Execution)
    requires Leases(executions, attempts) && id !in executions
    requires e.attempts == 0 && e.status.Pending? && e.leaseOwner.None? && e.leaseUntil.None?
    ensures Leases(executions[id := e], attempts)
  {
  }

  /** What an execution may be inserted for: a received trigger, and a rule of its organization that has
      no execution for that trigger and whose actions are what validation lets that trigger run. */
  ghost predicate MayInsert(db: Db, organizationId: string, ruleId: string, triggerId: string, executionId: string) {
    && executionId !in db.executions && ruleId in db.rules && triggerId in db.triggers
    && db.rules[ruleId].organizationId == organizationId == db.triggers[triggerId].organizationId
    && (db.triggers[triggerId].source.TimerSource? ==>
          db.triggers[triggerId].ruleId == Some(ruleId) && db.rules[ruleId].trigger.kind.OnSchedule?)
    && (forall e :: e in db.executions && db.executions[e].triggerId == triggerId ==> db.executions[e].ruleId != ruleId)
  }

  lemma IntakeAfterInsert(db: Db, id: string, e: Execution)
    requires IntakeOk(db.triggers, db.executions) && TriggersOk(db.triggers)
    requires MayInsert(db, e.organizationId, e.ruleId, e.triggerId, id)
    ensures IntakeOk(db.triggers, db.executions[id := e])
  {
    var executions' := db.executions[id := e];
    assert TriggerOk(db.triggers[e.triggerId]);
    forall f | f in executions' ensures BelongsToTrigger(db.triggers, executions'[f]) {
      assert f != id ==> BelongsToTrigger(db.triggers, db.executions[f]);
    }
    forall f, g | f in executions' && g in executions' && SameIntake(executions'[f], executions'[g]) ensures f == g {
      assert f != id && g != id ==> SameIntake(db.executions[f], db.executions[g]);
    }
  }

  lemma ReferencesAfterInsert(db: Db, id: string, e: Execution)
    requires References(db.rules, db.triggers, db.executions, db.dispatches)
    requires MayInsert(db, e.organizationId, e.ruleId, e.triggerId, id)
    ensures References(db.rules, db.triggers, db.executions[id := e], db.dispatches)
  {
  }

  lemma SnapshotsAfterInsert(db: Db, id: string, e: Execution)
    requires SnapshotsValid(db.triggers, db.executions) && RulesValid(db.rules)
    requires MayInsert(db, e.organizationId, e.ruleId, e.triggerId, id) && e.actions == db.rules[e.ruleId].actions
    ensures SnapshotsValid(db.triggers, db.executions[id := e])
  {
    hide ValidActions;
    var rule := db.rules[e.ruleId];
    assert ValidRule(rule.name, rule.trigger, rule.conditions, rule.actions);
  }

  lemma InsertExecutionKeepsInvariant(db: Db, organizationId: string, ruleId: string, triggerId: string, executionId: string)
    requires Inv(db) && MayInsert(db, organizationId, ruleId, triggerId, executionId)
    ensures Inv(InsertExecution(db, organizationId, ruleId, triggerId, db.rules[ruleId].actions, executionId))
  {
    hide References, Ledger, DispatchKeys, TriggersOk, IntakeOk, Leases, ReceiptsOk, CommandsOk, NamesOk, RulesValid,
         SnapshotsValid;
    var e := Execution(organizationId, ruleId, triggerId, db.rules[ruleId].actions, Pending, 0, None, None, None);
    ReferencesAfterInsert(db, executionId, e);
    IntakeAfterInsert(db, executionId, e);
    LeasesAfterInsert(db.executions, db.attempts, executionId, e);
    ReceiptsAfterInsert(db.executions, db.receipts, executionId, e);
    SnapshotsAfterInsert(db, executionId, e);
  }

  lemma TriggersAfterReceipt(triggers: Triggers, id: string, t: TriggerReceipt)
    requires TriggersOk(triggers) && id !in triggers && TriggerOk(t)
    requires !Received(triggers, t.organizationId, t.source, t.dedupeKey)
    ensures TriggersOk(triggers[id := t])
  {
    var triggers' := triggers[id := t];
    forall s, u | s in triggers' && u in triggers' && SameDelivery(triggers'[s], triggers'[u]) ensures s == u {
      assert s != id && u != id ==> SameDelivery(triggers[s], triggers[u]);
    }
  }

  lemma ExecutionsAfterReceipt(db: Db, id: string, t: TriggerReceipt)
    requires id !in db.triggers && (t.ruleId.Some? ==> t.ruleId.value in db.rules)
    requires References(db.rules, db.triggers, db.executions, db.dispatches)
    requires IntakeOk(db.triggers, db.executions) && SnapshotsValid(db.triggers, db.executions)
    ensures References(db.rules, db.triggers[id := t], db.executions, db.dispatches)
    ensures IntakeOk(db.triggers[id := t], db.executions) && SnapshotsValid(db.triggers[id := t], db.executions)
  {
    hide ValidActions;
    var triggers' := db.triggers[id := t];
    forall e | e in db.executions
      ensures ExecutionRefers(db.rules, triggers', db.executions[e]) && BelongsToTrigger(triggers', db.executions[e])
              && SnapshotValid(triggers', db.executions[e])
    {
      assert ExecutionRefers(db.rules, db.triggers, db.executions[e]);
      assert BelongsToTrigger(db.triggers, db.executions[e]);
      assert SnapshotValid(db.triggers, db.executions[e]);
    }
  }

  /** Adding a delivery nobody received before keeps the invariant. */
  lemma ReceiptKeepsInvariant(db: Db, triggerId: string, t: TriggerReceipt)
    requires Inv(db) && triggerId !in db.triggers && TriggerOk(t)
    requires !Received(db.triggers, t.organizationId, t.source, t.dedupeKey)
    requires t.ruleId.Some? ==> t.ruleId.value in db.rules
    ensures Inv(db.(triggers := db.triggers[triggerId := t]))
  {
    hide References, Ledger, DispatchKeys, TriggersOk, IntakeOk, Leases, ReceiptsOk, CommandsOk, NamesOk, RulesValid,
         SnapshotsValid;
    TriggersAfterReceipt(db.triggers, triggerId, t);
    ExecutionsAfterReceipt(db, triggerId, t);
  }

  ghost predicate FreshRows(db: Db, matched: seq<(string, string)>) {
    && (forall i, j :: 0 <= i < j < |matched| ==> matched[i].0 != matched[j].0 && matched[i].1 != matched[j].1)
    && (forall i :: 0 <= i < |matched| ==> matched[i].0 in db.rules && matched[i].1 !in db.executions)
  }

  lemma {:induction false} InsertExecutionsFrame(db: Db, organizationId: string, triggerId: string,
                                                 matched: seq<(string, string)>, n: nat)
    requires n <= |matched| && FreshRows(db, matched)
    ensures var after := InsertExecutions(db, organizationId, triggerId, matched, n);
            after == db.(executions := after.executions, receipts := after.receipts)
  {
    if n > 0 {
      InsertExecutionsFrame(db, organizationId, triggerId, matched, n - 1);
    }
  }

  /** Every matched row gets the execution of its rule. */
  lemma {:induction false} InsertedRow(db: Db, organizationId: string, triggerId: string, matched: seq<(string, string)>,
                                       n: nat, i: nat)
    requires i < n <= |matched| && FreshRows(db, matched)
    ensures var after := InsertExecutions(db, organizationId, triggerId, matched, n);
            matched[i].1 in after.executions && after.executions[matched[i].1] == NewExecution(db, organizationId, matched[i].0, triggerId)
  {
    if i < n - 1 {
      InsertedRow(db, organizationId, triggerId, matched, n - 1, i);
    }
  }

  function NewExecution(db: Db, organizationId: string, ruleId: string, triggerId: string): Execution
    requires ruleId in db.rules
  {
    Execution(organizationId, ruleId, triggerId, db.rules[ruleId].actions, Pending, 0, None, None, None)
  }

  ghost predicate SameAt<K, V>(m: map<K, V>, m': map<K, V>, k: K) {
    (k in m <==> k in m') && (k in m ==> m[k] == m'[k])
  }

  /** No other execution appears or changes. */
  lemma {:induction false} InsertedNothingElse(db: Db, organizationId: string, triggerId: string,
                                               matched: seq<(string, string)>, n: nat, e: string)
    requires n <= |matched| && FreshRows(db, matched) && forall i :: 0 <= i < n ==> matched[i].1 != e
    ensures SameAt(InsertExecutions(db, organizationId, triggerId, matched, n).executions, db.executions, e)
  {
    if n > 0 {
      InsertedNothingElse(db, organizationId, triggerId, matched, n - 1, e);
    }
  }

  lemma NextInsertAllowed(db: Db, organizationId: string, triggerId: string, matched: seq<(string, string)>, n: nat)
    requires n < |matched| && FreshRows(db, matched) && triggerId in db.triggers && db.triggers[triggerId].source.EventSource?
    requires forall e :: e in db.executions ==> db.executions[e].triggerId != triggerId
    requires db.rules[matched[n].0].organizationId == organizationId == db.triggers[triggerId].organizationId
    ensures MayInsert(InsertExecutions(db, organizationId, triggerId, matched, n), organizationId, matched[n].0, triggerId, matched[n].1)
  {
    var before := InsertExecutions(db, organizationId, triggerId, matched, n);
    InsertExecutionsFrame(db, organizationId, triggerId, matched, n);
    InsertedNothingElse(db, organizationId, triggerId, matched, n, matched[n].1);
    forall e | e in before.executions && before.executions[e].triggerId == triggerId ensures before.executions[e].ruleId != matched[n].0 {
      if i :| 0 <= i < n && matched[i].1 == e {
        InsertedRow(db, organizationId, triggerId, matched, n, i);
      } else {
        InsertedNothingElse(db, organizationId, triggerId, matched, n, e);
      }
    }
  }

  lemma {:induction false} InsertExecutionsKeepInvariant(db: Db, organizationId: string, triggerId: string,
                                                         matched: seq<(string, string)>, n: nat)
    requires triggerId in db.triggers && db.triggers[triggerId].source.EventSource?
    requires db.triggers[triggerId].organizationId == organizationId
    requires forall e :: e in db.executions ==> db.executions[e].triggerId != triggerId
    requires n <= |matched| && FreshRows(db, matched)
    requires forall i :: 0 <= i < n ==> db.rules[matched[i].0].organizationId == organizationId
    requires Inv(db)
    ensures Inv(InsertExecutions(db, organizationId, triggerId, matched, n))
  {
    hide Inv, MayInsert, InsertExecution;
    if n > 0 {
      InsertExecutionsKeepInvariant(db, organizationId, triggerId, matched, n - 1);
      NextInsertAllowed(db, organizationId, triggerId, matched, n - 1);
      InsertExecutionsFrame(db, organizationId, triggerId, matched, n - 1);
      InsertExecutionKeepsInvariant(InsertExecutions(db, organizationId, triggerId, matched, n - 1),
                                    organizationId, matched[n - 1].0, triggerId, matched[n - 1].1);
    }
  }

  lemma MatchedFacts(db: Db, event: Event, matched: seq<(string, string)>)
    requires MatchedRows(db, event, matched)
    ensures forall i :: 0 <= i < |matched| ==> matched[i].0 in db.rules && EventMatches(db.rules[matched[i].0], event)
  {
    hide EventMatches;
    assert forall i :: 0 <= i < |matched| ==> matched[i].0 in MatchingRules(db.rules, event);
  }

  lemma NewTriggerHasNoExecution(db: Db, triggerId: string)
    requires triggerId !in db.triggers && Inv(db)
    ensures forall e :: e in db.executions ==> db.executions[e].triggerId != triggerId
  {
    assert forall e :: e in db.executions ==> ExecutionRefers(db.rules, db.triggers, db.executions[e]);
  }

  lemma EventReceiptOk(event: Event)
    ensures TriggerOk(EventReceipt(event))
  {
  }

  lemma EventKeepsInvariant(db: Db, event: Event, triggerId: string, matched: seq<(string, string)>)
    requires triggerId !in db.triggers && MatchedRows(db, event, matched)
    requires Inv(db)
    ensures Inv(ReceiveEvent(db, event, triggerId, matched).db)
  {
    hide Inv, ConditionsMatch, Received, TriggerOk, InsertExecution;
    if !Received(db.triggers, event.organizationId, EventSource, Other(event.dedupeKey)) {
      var received := db.(triggers := db.triggers[triggerId := EventReceipt(event)]);
      EventReceiptOk(event);
      NewTriggerHasNoExecution(db, triggerId);
      ReceiptKeepsInvariant(db, triggerId, EventReceipt(event));
      MatchedFacts(db, event, matched);
      InsertExecutionsKeepInvariant(received, event.organizationId, triggerId, matched, |matched|);
    }
  }

  lemma TimerReceiptOk(organizationId: string, ruleId: string, scheduledFor: Time)
    ensures TriggerOk(TimerReceipt(organizationId, ruleId, ScheduleKey(ruleId, scheduledFor), scheduledFor))
  {
  }

  lemma TimerKeepsInvariant(db: Db, organizationId: string, ruleId: string, dedupeKey: Key, scheduledFor: Time,
                            triggerId: string, executionId: string)
    requires triggerId !in db.triggers && executionId !in db.executions
    requires Inv(db)
    ensures Inv(ReceiveTimer(db, organizationId, ruleId, dedupeKey, scheduledFor, triggerId, executionId).db)
  {
    hide Inv, ScheduleKey, Received, TriggerOk;
    if dedupeKey == ScheduleKey(ruleId, scheduledFor) && !Received(db.triggers, organizationId, TimerSource, dedupeKey) && ruleId in db.rules {
      var t := TimerReceipt(organizationId, ruleId, dedupeKey, scheduledFor);
      TimerReceiptOk(organizationId, ruleId, scheduledFor);
      NewTriggerHasNoExecution(db, triggerId);
      ReceiptKeepsInvariant(db, triggerId, t);
      if TimerAccepted(db.rules, organizationId, ruleId, scheduledFor) {
        InsertExecutionKeepsInvariant(db.(triggers := db.triggers[triggerId := t]), organizationId, ruleId, triggerId, executionId);
      }
    }
  }

  // ----- leased execution -----

  function ClaimedRow(e: Execution, worker: string, leaseUntil: Time): Execution {
    e.(status := Running, attempts := e.attempts + 1, leaseOwner := Some(worker), leaseUntil := Some(leaseUntil))
  }

  /** Changing only status, attempt count, failure and lease of an execution keeps everything but the leases. */
  ghost predicate SameIdentity(e: Execution, f: Execution) {
    e.organizationId == f.organizationId && e.ruleId == f.ruleId && e.triggerId == f.triggerId && e.actions == f.actions
  }

  lemma IdentityAfterLeaseChange(db: Db, id: string, e: Execution)
    requires id in db.executions && SameIdentity(db.executions[id], e)
    requires References(db.rules, db.triggers, db.executions, db.dispatches)
    requires IntakeOk(db.triggers, db.executions) && SnapshotsValid(db.triggers, db.executions)
    ensures References(db.rules, db.triggers, db.executions[id := e], db.dispatches)
    ensures IntakeOk(db.triggers, db.executions[id := e]) && SnapshotsValid(db.triggers, db.executions[id := e])
  {
    hide ValidActions;
    var executions' := db.executions[id := e];
    forall f | f in executions'
      ensures ExecutionRefers(db.rules, db.triggers, executions'[f]) && BelongsToTrigger(db.triggers, executions'[f])
              && SnapshotValid(db.triggers, executions'[f])
    {
      assert ExecutionRefers(db.rules, db.triggers, db.executions[f]);
      assert BelongsToTrigger(db.triggers, db.executions[f]);
      assert SnapshotValid(db.triggers, db.executions[f]);
    }
    forall f, g | f in executions' && g in executions' && SameIntake(executions'[f], executions'[g]) ensures f == g {
      assert SameIntake(db.executions[f], db.executions[g]);
    }
  }

  lemma LeaseChangeKeepsInvariant(db: Db, id: string, e: Execution, attempts: Attempts)
    requires id in db.executions && SameIdentity(db.executions[id], e)
    requires Leases(db.executions[id := e], attempts)
    requires Inv(db)
    ensures Inv(db.(executions := db.executions[id := e], attempts := attempts))
  {
    hide References, Ledger, DispatchKeys, TriggersOk, IntakeOk, Leases, ReceiptsOk, CommandsOk, NamesOk, RulesValid,
         SnapshotsValid;
    ReceiptsAfterLeaseChange(db, id, e);
    IdentityAfterLeaseChange(db, id, e);
  }

  lemma ReceiptsAfterLeaseChange(db: Db, id: string, e: Execution)
    requires ReceiptsOk(db.executions, db.receipts) && id in db.executions && SameIdentity(db.executions[id], e)
    ensures ReceiptsOk(db.executions[id := e], db.receipts)
  {
    forall k | k in db.receipts ensures ReceiptFor(db.executions[id := e][k.0], k, db.receipts[k]) {
      assert ReceiptFor(db.executions[k.0], k, db.receipts[k]);
    }
  }

  /** An execution whose attempt rows did not change keeps its lease facts. */
  lemma LeaseOkFrame(id: string, e: Execution, attempts: Attempts, attempts': Attempts)
    requires LeaseOk(id, e, attempts) && forall n :: SameAt(attempts, attempts', (id, n))
    ensures LeaseOk(id, e, attempts')
  {
    forall n ensures (id, n) in attempts' <==> 1 <= n <= e.attempts {
      assert SameAt(attempts, attempts', (id, n));
    }
    assert SameAt(attempts, attempts', (id, e.attempts));
    forall n | 1 <= n < e.attempts ensures attempts'[(id, n)].status.Retryable? {
      assert SameAt(attempts, attempts', (id, n));
    }
  }

  lemma ClaimedLeaseOk(id: string, e: Execution, attempts: Attempts, worker: string, leaseUntil: Time)
    requires LeaseOk(id, e, attempts) && !e.Terminal()
    ensures LeaseOk(id, ClaimedRow(e, worker, leaseUntil),
                    ExpireAttempt(attempts, id, e.attempts)[(id, e.attempts + 1) := Attempt(worker, AttemptRunning, None)])
  {
  }

  lemma LeasesAfterClaim(executions: Executions, attempts: Attempts, id: string, worker: string, leaseUntil: Time)
    requires Leases(executions, attempts) && id in executions && !executions[id].Terminal()
    ensures Leases(executions[id := ClaimedRow(executions[id], worker, leaseUntil)],
                   ExpireAttempt(attempts, id, executions[id].attempts)[(id, executions[id].attempts + 1) := Attempt(worker, AttemptRunning, None)])
  {
    hide LeaseOk;
    var attempts' := ExpireAttempt(attempts, id, executions[id].attempts)[(id, executions[id].attempts + 1) := Attempt(worker, AttemptRunning, None)];
    ClaimedLeaseOk(id, executions[id], attempts, worker, leaseUntil);
    forall f | f in executions && f != id ensures LeaseOk(f, executions[f], attempts') {
      LeaseOkFrame(f, executions[f], attempts, attempts');
    }
  }

  lemma InvariantLeases(db: Db)
    requires Inv(db)
    ensures Leases(db.executions, db.attempts)
  {
    hide Leases;
  }

  lemma ClaimOneKeepsInvariant(db: Db, id: string, worker: string, leaseUntil: Time)
    requires id in db.executions && !db.executions[id].Terminal()
    requires Inv(db)
    ensures Inv(ClaimOne(db, id, worker, leaseUntil))
  {
    hide Inv, Leases, ExpireAttempt;
    var after := ClaimOne(db, id, worker, leaseUntil);
    InvariantLeases(db);
    LeasesAfterClaim(db.executions, db.attempts, id, worker, leaseUntil);
    LeaseChangeKeepsInvariant(db, id, after.executions[id], after.attempts);
  }

  lemma {:induction false} ClaimAllFrame(db: Db, picked: seq<string>, n: nat, worker: string, leaseUntil: Time)
    requires n <= |picked| && forall e :: e in picked ==> e in db.executions
    ensures var after := ClaimAll(db, picked, n, worker, leaseUntil);
            after == db.(executions := after.executions, attempts := after.attempts)
  {
    if n > 0 {
      ClaimAllFrame(db, picked, n - 1, worker, leaseUntil);
    }
  }

  /** Claiming rows touches no other execution. */
  lemma {:induction false} ClaimedNothingElse(db: Db, picked: seq<string>, n: nat, worker: string, leaseUntil: Time, e: string)
    requires n <= |picked| && (forall e :: e in picked ==> e in db.executions) && e in db.executions && e !in picked[..n]
    ensures var after := ClaimAll(db, picked, n, worker, leaseUntil);
            after.executions[e] == db.executions[e] && forall a :: SameAt(after.attempts, db.attempts, (e, a))
  {
    if n > 0 {
      assert e !in picked[..n - 1] && picked[n - 1] in picked[..n];
      ClaimedNothingElse(db, picked, n - 1, worker, leaseUntil, e);
    }
  }

  lemma DistinctPrefix(picked: seq<string>, n: nat)
    requires n < |picked| && Distinct(picked)
    ensures picked[n] !in picked[..n] && picked[n] in picked
  {
  }

  ghost predicate IsClaimed(after: Db, row: Execution, id: string, worker: string, leaseUntil: Time) {
    && id in after.executions && after.executions[id] == ClaimedRow(row, worker, leaseUntil)
    && (id, row.attempts + 1) in after.attempts && after.attempts[(id, row.attempts + 1)] == Attempt(worker, AttemptRunning, None)
  }

  lemma ClaimOneClaims(db: Db, id: string, worker: string, leaseUntil: Time, row: Execution)
    requires id in db.executions && db.executions[id] == row
    ensures IsClaimed(ClaimOne(db, id, worker, leaseUntil), row, id, worker, leaseUntil)
  {
  }

  lemma ClaimOneSparesOthers(db: Db, id: string, worker: string, leaseUntil: Time, other: string, row: Execution)
    requires id in db.executions && other != id && IsClaimed(db, row, other, worker, leaseUntil)
    ensures IsClaimed(ClaimOne(db, id, worker, leaseUntil), row, other, worker, leaseUntil)
  {
  }

  /** Claiming rows claims each of them. */
  lemma {:induction false} ClaimedEach(db: Db, picked: seq<string>, n: nat, worker: string, leaseUntil: Time, i: nat)
    requires i < n <= |picked| && Distinct(picked) && forall e :: e in picked ==> e in db.executions
    ensures IsClaimed(ClaimAll(db, picked, n, worker, leaseUntil), db.executions[picked[i]], picked[i], worker, leaseUntil)
  {
    hide ClaimOne, IsClaimed;
    var before := ClaimAll(db, picked, n - 1, worker, leaseUntil);
    if i < n - 1 {
      ClaimedEach(db, picked, n - 1, worker, leaseUntil, i);
      ClaimOneSparesOthers(before, picked[n - 1], worker, leaseUntil, picked[i], db.executions[picked[i]]);
    } else {
      DistinctPrefix(picked, i);
      ClaimedNothingElse(db, picked, n - 1, worker, leaseUntil, picked[i]);
      ClaimOneClaims(before, picked[i], worker, leaseUntil, db.executions[picked[i]]);
    }
  }

  lemma StillClaimable(db: Db, picked: seq<string>, n: nat, worker: string, leaseUntil: Time)
    requires n < |picked| && Distinct(picked) && forall e :: e in picked ==> e in db.executions && !db.executions[e].Terminal()
    ensures var before := ClaimAll(db, picked, n, worker, leaseUntil);
            picked[n] in before.executions && !before.executions[picked[n]].Terminal()
  {
    hide ClaimAll;
    DistinctPrefix(picked, n);
    ClaimedNothingElse(db, picked, n, worker, leaseUntil, picked[n]);
  }

  lemma {:induction false} ClaimAllKeepsInvariant(db: Db, picked: seq<string>, n: nat, worker: string, leaseUntil: Time)
    requires n <= |picked| && Distinct(picked)
    requires forall e :: e in picked ==> e in db.executions && !db.executions[e].Terminal()
    requires Inv(db)
    ensures Inv(ClaimAll(db, picked, n, worker, leaseUntil))
  {
    hide Inv, Distinct, ClaimOne;
    if n > 0 {
      ClaimAllKeepsInvariant(db, picked, n - 1, worker, leaseUntil);
      StillClaimable(db, picked, n - 1, worker, leaseUntil);
      ClaimOneKeepsInvariant(ClaimAll(db, picked, n - 1, worker, leaseUntil), picked[n - 1], worker, leaseUntil);
    }
  }

  lemma EndedLeaseOk(db: Db, claim: Claim, status: ExecutionStatus, failure: Option<string>, now: Time)
    requires HoldsLease(db.executions, claim, now) && !status.Running?
    requires LeaseOk(claim.executionId, db.executions[claim.executionId], db.attempts)
    ensures var after := EndAttempt(db, claim, status, LastAttemptStatus(status), failure);
            LeaseOk(claim.executionId, after.executions[claim.executionId], after.attempts)
  {
    assert (claim.executionId, claim.attempt) in db.attempts;
  }

  lemma LeasesAfterEnd(db: Db, claim: Claim, status: ExecutionStatus, failure: Option<string>, now: Time)
    requires Leases(db.executions, db.attempts) && HoldsLease(db.executions, claim, now) && !status.Running?
    ensures var after := EndAttempt(db, claim, status, LastAttemptStatus(status), failure); Leases(after.executions, after.attempts)
  {
    hide LeaseOk;
    var after := EndAttempt(db, claim, status, LastAttemptStatus(status), failure);
    EndedLeaseOk(db, claim, status, failure, now);
    forall f | f in db.executions && f != claim.executionId ensures LeaseOk(f, after.executions[f], after.attempts) {
      LeaseOkFrame(f, db.executions[f], db.attempts, after.attempts);
    }
  }

  lemma EndAttemptKeepsInvariant(db: Db, claim: Claim, status: ExecutionStatus, failure: Option<string>, now: Time)
    requires HoldsLease(db.executions, claim, now) && !status.Running?
    requires Inv(db)
    ensures Inv(EndAttempt(db, claim, status, LastAttemptStatus(status), failure))
  {
    hide Inv, Leases;
    var after := EndAttempt(db, claim, status, LastAttemptStatus(status), failure);
    InvariantLeases(db);
    LeasesAfterEnd(db, claim, status, failure, now);
    LeaseChangeKeepsInvariant(db, claim.executionId, after.executions[claim.executionId], after.attempts);
  }

  lemma ReceiptsAfterUpdate(executions: Executions, receipts: Receipts, k: (string, int), r: ActionReceipt)
    requires ReceiptsOk(executions, receipts) && k in receipts
    requires r.kind == receipts[k].kind && r.idempotencyKey == receipts[k].idempotencyKey
    ensures ReceiptsOk(executions, receipts[k := r])
  {
    forall j | j in receipts ensures ReceiptFor(executions[j.0], j, receipts[k := r][j]) {
      assert ReceiptFor(executions[j.0], j, receipts[j]);
    }
  }

  lemma ReceiptUpdateKeepsInvariant(db: Db, k: (string, int), r: ActionReceipt)
    requires k in db.receipts && r.kind == db.receipts[k].kind && r.idempotencyKey == db.receipts[k].idempotencyKey
    requires Inv(db)
    ensures Inv(db.(receipts := db.receipts[k := r]))
  {
    hide References, Ledger, DispatchKeys, TriggersOk, IntakeOk, Leases, ReceiptsOk, CommandsOk, NamesOk, RulesValid,
         SnapshotsValid;
    ReceiptsAfterUpdate(db.executions, db.receipts, k, r);
  }

  /** The next slot of a live schedule replaces the current one in the rule and in the ledger. */
  lemma AdvanceKeepsInvariant(db: Db, ruleId: string, payload: Payload, now: Time)
    requires AdvanceSchedule(db, ruleId, payload, now).Ok?
    requires Inv(db)
    ensures Inv(AdvanceSchedule(db, ruleId, payload, now).value)
  {
    hide References, Ledger, DispatchKeys, TriggersOk, IntakeOk, Leases, ReceiptsOk, CommandsOk, NamesOk, RulesValid,
         SnapshotsValid, PayloadJson;
    var after := AdvanceSchedule(db, ruleId, payload, now).value;
    if after != db {
      var rule := after.rules[ruleId];
      var next := CheckedAddSeconds(db.rules[ruleId].nextFireAt.value, rule.trigger.intervalSeconds.value);
      ReferencesAfterAdvance(db, ruleId, rule, next);
      LedgerAfterReplacement(db.rules, db.dispatches, ruleId, rule, next);
      DispatchKeysAfter(db.dispatches, rule.organizationId, ruleId, next);
      RulesAfterAdvance(db.commands, db.rules, ruleId, rule);
    }
  }

  lemma ReferencesAfterAdvance(db: Db, ruleId: string, rule: Rule, next: Option<Time>)
    requires References(db.rules, db.triggers, db.executions, db.dispatches)
    requires ruleId in db.rules && rule.organizationId == db.rules[ruleId].organizationId
    ensures References(db.rules[ruleId := rule], db.triggers, db.executions,
                       ReplacePendingSchedule(db.dispatches, rule.organizationId, ruleId, next))
  {
    ReferencesAfterCommit(db, DeleteRequest(rule.organizationId, ruleId, 1), rule, next);
  }

  lemma RulesAfterAdvance(commands: Commands, rules: RuleTable, ruleId: string, rule: Rule)
    requires CommandsOk(commands, rules) && NamesOk(rules) && RulesValid(rules) && ruleId in rules
    requires rule == rules[ruleId].(nextFireAt := rule.nextFireAt, updatedAt := rule.updatedAt)
    ensures CommandsOk(commands, rules[ruleId := rule]) && NamesOk(rules[ruleId := rule]) && RulesValid(rules[ruleId := rule])
  {
    hide Mutations, ValidRule;
    var rules' := rules[ruleId := rule];
    forall s | s in commands ensures CommandOk(s, commands[s], rules') {
      assert CommandOk(s, commands[s], rules);
    }
    forall r, q | r in rules' && q in rules' && SameName(rules'[r], rules'[q]) ensures r == q {
      assert SameName(rules[r], rules[q]);
    }
  }

  lemma CompleteKeepsInvariant(db: Db, claim: Claim, succeeded: bool, failure: Option<string>, now: Time)
    requires Inv(db)
    ensures Inv(CompleteExecution(db, claim, succeeded, failure, now).db)
  {
    hide Inv, AdvanceSchedule;
    if HoldsLease(db.executions, claim, now) {
      var status := if succeeded then Succeeded else Failed;
      EndAttemptKeepsInvariant(db, claim, status, failure, now);
      var ended := EndAttempt(db, claim, status, LastAttemptStatus(status), failure);
      if AdvanceSchedule(ended, claim.ruleId, claim.payload, now).Ok? {
        AdvanceKeepsInvariant(ended, claim.ruleId, claim.payload, now);
      }
    }
  }

  // ----- dispatch receipts -----

  lemma LedgerAfterUpdate(db: Db, k: (string, Time), d: Dispatch)
    requires k in db.dispatches && DispatchStep(db.dispatches[k], d)
    requires Ledger(db.rules, db.dispatches) && DispatchKeys(db.dispatches)
    requires References(db.rules, db.triggers, db.executions, db.dispatches)
    ensures Ledger(db.rules, db.dispatches[k := d]) && DispatchKeys(db.dispatches[k := d])
    ensures References(db.rules, db.triggers, db.executions, db.dispatches[k := d])
  {
    hide ExecutionRefers;
    var dispatches' := db.dispatches[k := d];
    forall r | r in db.rules && db.rules[r].nextFireAt.Some? ensures LiveDispatch(dispatches', r, db.rules[r].nextFireAt.value) {
      assert LiveDispatch(db.dispatches, r, db.rules[r].nextFireAt.value);
    }
    forall j | j in dispatches' ensures KeyOfSlot(j, dispatches'[j].idempotencyKey) {
      assert KeyOfSlot(j, db.dispatches[j].idempotencyKey);
    }
  }

  /** A dispatch update that keeps organization and key, and moves at most from pending to enqueued. */
  ghost predicate DispatchStep(a: Dispatch, b: Dispatch) {
    && a.organizationId == b.organizationId && a.idempotencyKey == b.idempotencyKey
    && (b.state == a.state || (b.state.Enqueued? && a.state.DispatchPending?))
  }

  lemma DispatchUpdateKeepsInvariant(db: Db, k: (string, Time), d: Dispatch)
    requires k in db.dispatches && DispatchStep(db.dispatches[k], d)
    requires Inv(db)
    ensures Inv(db.(dispatches := db.dispatches[k := d]))
  {
    hide References, Ledger, DispatchKeys, TriggersOk, IntakeOk, Leases, ReceiptsOk, CommandsOk, NamesOk, RulesValid,
         SnapshotsValid;
    LedgerAfterUpdate(db, k, d);
  }
}
