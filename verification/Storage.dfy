/** The storage functions as they run: statement by statement over tables updated in place. Each leaves the
    tables its specification in `Transactions` says, whichever way it returns. */
module Storage {
  import opened Results
  import opened Text
  import opened Schedule
  import opened Rules
  import opened Payloads
  import opened Targets
  import opened Keys
  import opened Tables
  import opened Transactions
  import opened Invariants
  import opened Preservation
  import opened Runs

  /** The rows of a query without an order: each row that satisfies it, once, in any order. */
  ghost predicate EventRows(rules: RuleTable, organizationId: string, rows: seq<string>) {
    && Distinct(rows)
    && forall r :: r in rows <==> r in rules && IsEventRow(rules[r], organizationId)
  }

  predicate IsEventRow(rule: Rule, organizationId: string) {
    rule.organizationId == organizationId && rule.enabled && rule.Live() && rule.trigger.kind.OnEvent?
  }

  ghost predicate FreshIds(executions: Executions, ids: seq<string>) {
    Distinct(ids) && forall e :: e in ids ==> e !in executions
  }

  class Store {
    var commands: Commands
    var rules: RuleTable
    var triggers: Triggers
    var executions: Executions
    var attempts: Attempts
    var receipts: Receipts
    var dispatches: Dispatches

    constructor ()
      ensures View() == EMPTY && Valid()
    {
      commands, rules, triggers, executions, attempts, receipts, dispatches := map[], map[], map[], map[], map[], map[], map[];
    }

    function View(): Db
      reads this
    {
      Db(commands, rules, triggers, executions, attempts, receipts, dispatches)
    }

    ghost predicate Valid()
      reads this
    {
      Inv(View())
    }

    /** Dropping a transaction restores what it started on. */
    method Rollback(saved: Db)
      modifies this
      ensures View() == saved
    {
      commands, rules, triggers, executions := saved.commands, saved.rules, saved.triggers, saved.executions;
      attempts, receipts, dispatches := saved.attempts, saved.receipts, saved.dispatches;
    }

    // ----- recurring schedules -----

    method ReplacePendingSchedule(organizationId: string, ruleId: string, next: Option<Time>)
      modifies this`dispatches
      ensures dispatches == Transactions.ReplacePendingSchedule(old(dispatches), organizationId, ruleId, next)
    {
      match next
      case Some(at) =>
        dispatches := map k | k in dispatches ::
          if k.0 == ruleId && dispatches[k].state.DispatchPending? && k.1 != Stored(at) then dispatches[k].(state := Cancelled) else dispatches[k];
        var k := (ruleId, Stored(at));
        if k !in dispatches {
          dispatches := dispatches[k := Dispatch(organizationId, DispatchPending, 0, ScheduleKey(ruleId, at), None, None)];
        } else if dispatches[k].state.Cancelled? {
          dispatches := dispatches[k := dispatches[k].(state := DispatchPending, lastFailure := None)];
        }
      case None =>
        dispatches := map k | k in dispatches ::
          if k.0 == ruleId && dispatches[k].state.DispatchPending? then dispatches[k].(state := Cancelled) else dispatches[k];
    }

    // ----- management commands -----

    /** Inserts the receipt without a response, or reads the one that is there. */
    method ReserveCommand(scope: Scope, request: Request) returns (start: CommandStart)
      modifies this`commands
      ensures start == Transactions.ReserveCommand(old(commands), scope, request)
      ensures commands == if start.New? then old(commands)[scope := Command(request, None)] else old(commands)
    {
      if scope !in commands {
        commands := commands[scope := Command(request, None)];
        return New;
      }
      var stored := commands[scope];
      if stored.request != request {
        return Conflict;
      }
      match stored.response
      case None => return Conflict;
      case Some(response) => return Replay(response);
    }

    method CompleteCommand(scope: Scope, response: Response) returns (completed: bool)
      modifies this`commands
      ensures completed <==> scope in old(commands) && old(commands)[scope].response.None?
      ensures commands == if completed then old(commands)[scope := old(commands)[scope].(response := Some(response))] else old(commands)
    {
      completed := scope in commands && commands[scope].response.None?;
      if completed {
        commands := commands[scope := commands[scope].(response := Some(response))];
      }
    }

    /** The end every command shares: its dispatches, its response, its receipt. */
    method FinishCommand(saved: Db, scope: Scope, request: Request, next: Option<Time>) returns (reply: Result<Response>)
      requires request.ruleId in rules
      modifies this
      ensures var rule := old(rules)[request.ruleId];
              old(View()) == Reserved(saved, scope, request, rule) ==>
                reply == Ok(ResponseTo(request, rule)) && View() == CommitCommand(saved, scope, request, rule, next)
      ensures reply.Err? ==> View() == saved
    {
      hide Transactions.ReplacePendingSchedule, ResponseTo, CommitCommand, Reserved;
      FinishesReserved(saved, scope, request, rules[request.ruleId], next);
      ReplacePendingSchedule(request.organizationId, request.ruleId, next);
      var response := ResponseTo(request, rules[request.ruleId]);
      var completed := CompleteCommand(scope, response);
      if !completed {
        Rollback(saved);
        return Err(Runtime);
      }
      return Ok(response);
    }

    method CreateRule(scope: Scope, request: Request, clock: Time, now: Time, rowSeq: int) returns (reply: Result<Response>)
      requires request.CreateRequest?
      modifies this
      ensures Tx(View(), reply) == Manage(old(View()), scope, request, clock, now, rowSeq)
    {
      hide CommitCommand, NameTaken, InitialNextFire, ResponseTo;
      var saved := View();
      var start := ReserveCommand(scope, request);
      match start
      case Replay(response) => return Ok(response);
      case Conflict => return Err(IdempotencyConflict);
      case New =>
        var first := InitialNextFire(request.trigger, request.enabled, clock);
        if first.Err? {
          Rollback(saved);
          return Err(first.failure);
        }
        if request.ruleId in rules {
          Rollback(saved);
          return Err(RuleIdConflict);
        }
        if NameTaken(rules, request.ruleId, request.organizationId, request.name, None) {
          Rollback(saved);
          return Err(RuleNameConflict);
        }
        rules := rules[request.ruleId :=
          Rule(request.organizationId, request.name, request.enabled, request.trigger, request.conditions, request.actions,
               1, StoredOption(first.value), rowSeq, now, now, None)];
        reply := FinishCommand(saved, scope, request, first.value);
    }

    method UpdateRule(scope: Scope, request: Request, clock: Time, now: Time) returns (reply: Result<Response>)
      requires request.UpdateRequest?
      modifies this
      ensures Tx(View(), reply) == Manage(old(View()), scope, request, clock, now, 0)
    {
      hide CommitCommand, NameTaken, InitialNextFire, ResponseTo;
      var saved := View();
      var start := ReserveCommand(scope, request);
      match start
      case Replay(response) => return Ok(response);
      case Conflict => return Err(IdempotencyConflict);
      case New =>
        if !Found(rules, request.organizationId, request.ruleId) {
          Rollback(saved);
          return Err(NotFound);
        }
        var rule := rules[request.ruleId];
        var first := InitialNextFire(request.trigger, rule.enabled, clock);
        if first.Err? {
          Rollback(saved);
          return Err(first.failure);
        }
        if rule.revision != request.expectedRevision {
          Rollback(saved);
          return Err(RevisionConflict);
        }
        if rule.revision == I64_MAX {
          Rollback(saved);
          return Err(Runtime);
        }
        if NameTaken(rules, request.ruleId, request.organizationId, request.name, None) {
          Rollback(saved);
          return Err(RuleNameConflict);
        }
        rules := rules[request.ruleId :=
          rule.(name := request.name, trigger := request.trigger, conditions := request.conditions, actions := request.actions,
                nextFireAt := StoredOption(first.value), revision := rule.revision + 1, updatedAt := now)];
        reply := FinishCommand(saved, scope, request, first.value);
    }

    method SetEnabled(scope: Scope, request: Request, clock: Time, now: Time) returns (reply: Result<Response>)
      requires request.SetEnabledRequest?
      modifies this
      ensures Tx(View(), reply) == Manage(old(View()), scope, request, clock, now, 0)
    {
      hide CommitCommand, NameTaken, InitialNextFire, ResponseTo;
      var saved := View();
      var start := ReserveCommand(scope, request);
      match start
      case Replay(response) => return Ok(response);
      case Conflict => return Err(IdempotencyConflict);
      case New =>
        if !Found(rules, request.organizationId, request.ruleId) {
          Rollback(saved);
          return Err(NotFound);
        }
        var rule := rules[request.ruleId];
        var first := InitialNextFire(rule.trigger, request.enabled, clock);
        if first.Err? {
          Rollback(saved);
          return Err(first.failure);
        }
        if rule.revision != request.expectedRevision {
          Rollback(saved);
          return Err(RevisionConflict);
        }
        if rule.revision == I64_MAX {
          Rollback(saved);
          return Err(Runtime);
        }
        rules := rules[request.ruleId :=
          rule.(enabled := request.enabled, nextFireAt := StoredOption(first.value), revision := rule.revision + 1, updatedAt := now)];
        reply := FinishCommand(saved, scope, request, first.value);
    }

    /** The update comes first here; only when it touched no row is the reason looked up. */
    method DeleteRule(scope: Scope, request: Request, now: Time) returns (reply: Result<Response>)
      requires request.DeleteRequest?
      modifies this
      ensures Tx(View(), reply) == Manage(old(View()), scope, request, 0, now, 0)
    {
      hide CommitCommand, NameTaken, InitialNextFire, ResponseTo;
      var saved := View();
      var start := ReserveCommand(scope, request);
      match start
      case Replay(response) => return Ok(response);
      case Conflict => return Err(IdempotencyConflict);
      case New =>
        var found := Found(rules, request.organizationId, request.ruleId);
        if !found || rules[request.ruleId].revision != request.expectedRevision {
          Rollback(saved);
          return Err(if found then RevisionConflict else NotFound);
        }
        var rule := rules[request.ruleId];
        if rule.revision == I64_MAX || NameTaken(rules, request.ruleId, request.organizationId, rule.name, Some(now)) {
          Rollback(saved);
          return Err(Runtime);
        }
        rules := rules[request.ruleId :=
          rule.(enabled := false, nextFireAt := None, deletedAt := Some(now), revision := rule.revision + 1, updatedAt := now)];
        reply := FinishCommand(saved, scope, request, None);
    }

    /** A management operation of the plugin: validate, then run its storage function. */
    method Handle(scope: Scope, request: Request, clock: Time, now: Time, rowSeq: int) returns (reply: Result<Response>)
      requires Valid() && Enabled(View(), ManageOp(scope, request, clock, now, rowSeq))
      modifies this
      ensures Valid() && Tx(View(), reply) == HandleCommand(old(View()), scope, request, clock, now, rowSeq)
    {
      hide Inv, Transactions.ReserveCommand, Transactions.ReplacePendingSchedule, NameTaken, InitialNextFire, ValidRequest,
           ResponseTo;
      ghost var before := View();
      ManagementKeepsInvariant(before, scope, request, clock, now, rowSeq);
      if !ValidRequest(request, scope.idempotencyKey) {
        return Err(InvalidRequest);
      }
      match request
      case CreateRequest(_, _, _, _, _, _, _) => reply := CreateRule(scope, request, clock, now, rowSeq);
      case UpdateRequest(_, _, _, _, _, _, _) => reply := UpdateRule(scope, request, clock, now);
      case SetEnabledRequest(_, _, _, _) => reply := SetEnabled(scope, request, clock, now);
      case DeleteRequest(_, _, _) => reply := DeleteRule(scope, request, now);
    }

    // ----- trigger intake -----

    /** An execution and its receipts; or the execution the rule already has for this trigger. */
    method InsertExecution(organizationId: string, ruleId: string, triggerId: string, actions: seq<Action>, executionId: string)
      returns (id: string)
      modifies this`executions, this`receipts
      ensures (forall e :: e in old(executions) ==> !SameRow(old(executions)[e], ruleId, triggerId)) ==>
                id == executionId && View() == Transactions.InsertExecution(old(View()), organizationId, ruleId, triggerId, actions, executionId)
      ensures (exists e :: e in old(executions) && SameRow(old(executions)[e], ruleId, triggerId)) ==>
                View() == old(View()) && id in executions && SameRow(executions[id], ruleId, triggerId)
    {
      hide NewReceipts;
      if e :| e in executions && SameRow(executions[e], ruleId, triggerId) {
        return e;
      }
      executions := executions[executionId := Execution(organizationId, ruleId, triggerId, actions, Pending, 0, None, None, None)];
      ghost var before := receipts;
      NoReceiptYet(executionId, actions);
      for index := 0 to |actions|
        modifies this`receipts
        invariant receipts == before + NewReceipts(executionId, actions[..index])
      {
        NextReceipt(executionId, actions, index);
        receipts := receipts[(executionId, index) :=
          ActionReceipt(actions[index].kind, ActionPending, 0, ActionKey(executionId, index), None, None)];
      }
      assert actions[..|actions|] == actions;
      return executionId;
    }

    method ReceiveEvent(event: Event, triggerId: string, rows: seq<string>, ids: seq<string>)
      returns (intake: Intake, ghost matched: seq<(string, string)>)
      requires Valid() && triggerId !in triggers && EventRows(rules, event.organizationId, rows)
      requires |ids| == |rows| && FreshIds(executions, ids)
      modifies this
      ensures MatchedRows(old(View()), event, matched)
      ensures Valid() && Tx(View(), Ok(intake)) == Transactions.ReceiveEvent(old(View()), event, triggerId, matched)
    {
      hide Inv, ConditionsMatch, Transactions.InsertExecution, Transactions.ReceiveEvent, EventMatches, FreshRows, MatchedRows,
           Distinct, FreshIds, InsertExecutions, MatchesIn, IdsOf, Received, ExecutionsFor, EventReceipt;
      ghost var before := View();
      matched := MatchesIn(rules, event, rows, ids, |rows|);
      AllMatched(before, event, rows, ids);
      EventKeepsInvariant(before, event, triggerId, matched);
      EventAnswer(before, event, triggerId, matched);
      NoIds();
      var key := Other(event.dedupeKey);
      if Received(triggers, event.organizationId, EventSource, key) {
        return Intake(true, true, ExecutionsFor(View(), event.organizationId, EventSource, key)), matched;
      }
      triggers := triggers[triggerId := EventReceipt(event)];
      ghost var received := View();
      NewTriggerHasNoExecution(before, triggerId);
      var executionIds: set<string> := {};
      ghost var done: seq<(string, string)> := [];
      NoMatchYet(received, event, triggerId, rows, ids);
      for i := 0 to |rows|
        modifies this`executions, this`receipts
        invariant done == MatchesIn(before.rules, event, rows, ids, i)
        invariant AllRules(before.rules, done)
        invariant View() == InsertExecutions(received, event.organizationId, triggerId, done, |done|)
        invariant executionIds == IdsOf(done)
      {
        RowMatches(rules, event, rows, i);
        var rule := rules[rows[i]];
        if event.eventType in rule.trigger.eventTypes && ConditionsMatch(ConditionsJson(rule.conditions), EventJson(event)) {
          NextMatch(received, event, triggerId, rows, ids, i);
          var id := InsertExecution(event.organizationId, rows[i], triggerId, rule.actions, ids[i]);
          MoreIds(done, rows[i], ids[i]);
          executionIds := executionIds + {id};
          done := done + [(rows[i], ids[i])];
        } else {
          SkipsMismatch(rules, event, rows, ids, i);
        }
      }
      intake := Intake(true, false, executionIds);
    }

    method ReceiveTimer(organizationId: string, ruleId: string, dedupeKey: Key, scheduledFor: Time, triggerId: string,
                        executionId: string)
      returns (reply: Result<Intake>)
      requires Valid() && triggerId !in triggers && executionId !in executions
      modifies this
      ensures Valid()
      ensures Tx(View(), reply) == Transactions.ReceiveTimer(old(View()), organizationId, ruleId, dedupeKey, scheduledFor, triggerId, executionId)
    {
      hide Inv, ScheduleKey, Transactions.InsertExecution;
      TimerKeepsInvariant(View(), organizationId, ruleId, dedupeKey, scheduledFor, triggerId, executionId);
      NewTriggerHasNoExecution(View(), triggerId);
      if dedupeKey != ScheduleKey(ruleId, scheduledFor) {
        return Err(InvalidRequest);
      }
      if Received(triggers, organizationId, TimerSource, dedupeKey) {
        return Ok(Intake(true, true, ExecutionsFor(View(), organizationId, TimerSource, dedupeKey)));
      }
      if ruleId !in rules {
        return Err(Runtime);
      }
      triggers := triggers[triggerId := TimerReceipt(organizationId, ruleId, dedupeKey, scheduledFor)];
      if !Found(rules, organizationId, ruleId) {
        return Ok(Intake(false, false, {}));
      }
      var rule := rules[ruleId];
      if !rule.enabled || !rule.trigger.kind.OnSchedule? || rule.nextFireAt != Some(scheduledFor) {
        return Ok(Intake(false, false, {}));
      }
      var id := InsertExecution(organizationId, ruleId, triggerId, rule.actions, executionId);
      return Ok(Intake(true, false, {id}));
    }

    // ----- leased execution -----

    /** One row of the claim loop; false if its attempt counter is exhausted. */
    method ClaimRow(row: Claim, leaseUntil: Time) returns (claimed: bool)
      requires row.executionId in executions && row.attempt == executions[row.executionId].attempts + 1
      modifies this`executions, this`attempts
      ensures claimed <==> row.attempt != I32_MAX + 1
      ensures claimed ==> View() == ClaimOne(old(View()), row.executionId, row.worker, leaseUntil)
    {
      var id, previous := row.executionId, row.attempt - 1;
      if previous > 0 && (id, previous) in attempts && attempts[(id, previous)].status.AttemptRunning? {
        attempts := attempts[(id, previous) := attempts[(id, previous)].(status := Retryable, failure := Some("lease_expired"))];
      }
      if previous == I32_MAX {
        return false;
      }
      executions := executions[id :=
        executions[id].(status := Running, attempts := row.attempt, leaseOwner := Some(row.worker), leaseUntil := Some(leaseUntil))];
      attempts := attempts[(id, row.attempt) := Attempt(row.worker, AttemptRunning, None)];
      return true;
    }

    method ClaimExecutions(organizationId: string, worker: string, picked: seq<string>, limit: int, leaseSeconds: int, now: Time)
      returns (reply: Result<seq<Claim>>)
      requires Valid() && PickedRows(View(), organizationId, picked, limit, now)
      modifies this
      ensures Valid()
      ensures Tx(View(), reply) == Transactions.ClaimExecutions(old(View()), organizationId, worker, picked, limit, leaseSeconds, now)
    {
      hide Inv, ClaimOne, Distinct, ClaimAll;
      var saved := View();
      var leaseUntil := now + leaseSeconds * SECOND;
      ClaimAllKeepsInvariant(saved, picked, |picked|, worker, leaseUntil);
      NothingClaimedYet(saved, picked, worker, leaseUntil);
      var claimed: seq<Claim> := [];
      for i := 0 to |picked|
        invariant View() == ClaimAll(saved, picked, i, worker, leaseUntil)
        invariant forall j :: 0 <= j < i ==> saved.executions[picked[j]].attempts != I32_MAX
        invariant |claimed| == i && forall j :: 0 <= j < i ==> claimed[j] == ClaimOf(saved, picked[j], worker)
      {
        var row := ClaimOf(saved, picked[i], worker);
        NextClaim(saved, picked, i, worker, leaseUntil);
        var ok := ClaimRow(row, leaseUntil);
        if !ok {
          assert picked[i] in picked;
          Rollback(saved);
          return Err(Runtime);
        }
        claimed := claimed + [row];
      }
      assert claimed == ClaimsOf(saved, picked, worker);
      return Ok(claimed);
    }

    method ActionStatus(executionId: string, index: int) returns (reply: Result<(ReceiptStatus, Key)>)
      modifies this`receipts
      ensures Tx(View(), reply) == Transactions.ActionStatus(old(View()), executionId, index)
    {
      var k := (executionId, index);
      if k !in receipts {
        return Err(NotFound);
      }
      receipts := receipts[k := receipts[k].(attempts := receipts[k].attempts + 1)];
      return Ok((receipts[k].status, receipts[k].idempotencyKey));
    }

    method CompleteAction(executionId: string, index: int, succeeded: bool, response: Option<string>, failure: Option<string>)
      modifies this`receipts
      ensures View() == Transactions.CompleteAction(old(View()), executionId, index, succeeded, response, failure)
    {
      var k := (executionId, index);
      if k in receipts {
        receipts := receipts[k :=
          receipts[k].(status := if succeeded then ActionSucceeded else ActionFailed, response := response, lastFailure := failure)];
      }
    }

    /** The two updates that end an attempt; the first one is fenced by the lease. */
    method EndAttempt(claim: Claim, status: ExecutionStatus, attemptStatus: AttemptStatus, failure: Option<string>, now: Time)
      returns (updated: bool)
      modifies this`executions, this`attempts
      ensures updated <==> HoldsLease(old(executions), claim, now)
      ensures View() == if updated then Transactions.EndAttempt(old(View()), claim, status, attemptStatus, failure) else old(View())
    {
      var id := claim.executionId;
      updated := HoldsLease(executions, claim, now);
      if !updated {
        return;
      }
      executions := executions[id := executions[id].(status := status, lastFailure := failure, leaseOwner := None, leaseUntil := None)];
      var k := (id, claim.attempt);
      if k in attempts {
        attempts := attempts[k := attempts[k].(status := attemptStatus, failure := failure)];
      }
    }

    method ReleaseExecution(claim: Claim, failure: string, now: Time) returns (reply: Result<()>)
      requires Valid()
      modifies this
      ensures Valid() && Tx(View(), reply) == Transactions.ReleaseExecution(old(View()), claim, failure, now)
    {
      hide Inv, HoldsLease, Transactions.EndAttempt;
      ReleaseKeepsInvariant(View(), claim, failure, now);
      var updated := EndAttempt(claim, Pending, Retryable, Some(failure), now);
      if !updated {
        return Err(Runtime);
      }
      return Ok(());
    }

    method CompleteExecution(claim: Claim, succeeded: bool, failure: Option<string>, now: Time) returns (reply: Result<()>)
      requires Valid()
      modifies this
      ensures Valid() && Tx(View(), reply) == Transactions.CompleteExecution(old(View()), claim, succeeded, failure, now)
    {
      hide Inv, HoldsLease, Transactions.EndAttempt, PayloadJson, Get;
      var saved := View();
      CompleteKeepsInvariant(saved, claim, succeeded, failure, now);
      var updated := EndAttempt(claim, if succeeded then Succeeded else Failed,
                                if succeeded then AttemptSucceeded else AttemptFailed, failure, now);
      if !updated {
        return Err(Runtime);
      }
      if claim.triggerId !in triggers {
        Rollback(saved);
        return Err(Runtime);
      }
      if triggers[claim.triggerId].source.TimerSource? && claim.ruleId in rules && rules[claim.ruleId].Live() {
        var rule := rules[claim.ruleId];
        var scheduledFor := AsTime(Get(PayloadJson(claim.payload), "scheduled_for"));
        if rule.enabled && rule.trigger.kind.OnSchedule? && rule.nextFireAt == scheduledFor {
          if rule.trigger.intervalSeconds.None? || scheduledFor.None? {
            Rollback(saved);
            return Err(InvalidRequest);
          }
          var next := CheckedAddSeconds(scheduledFor.value, rule.trigger.intervalSeconds.value);
          if next.None? {
            Rollback(saved);
            return Err(Runtime);
          }
          rules := rules[claim.ruleId := rule.(nextFireAt := Some(Stored(next.value)), updatedAt := now)];
          ReplacePendingSchedule(rule.organizationId, claim.ruleId, next);
        }
      }
      return Ok(());
    }

    // ----- dispatch receipts -----

    /** Two statements, each its own transaction; only the first is reported as recorded. */
    method MarkDispatchEnqueued(k: (string, Time), jobId: string) returns (recorded: bool)
      modifies this`dispatches
      ensures recorded <==> k in old(dispatches) && old(dispatches)[k].state.DispatchPending?
      ensures dispatches == MarkCancelledUnless(recorded, MarkEnqueued(old(dispatches), k, jobId).0, k, jobId)
      ensures dispatches.Keys == old(dispatches).Keys && forall j :: j in dispatches && j != k ==> dispatches[j] == old(dispatches)[j]
      ensures k in dispatches ==>
                var d := old(dispatches)[k];
                dispatches[k] == match d.state
                  case DispatchPending => d.(state := Enqueued, attempts := d.attempts + 1, jobId := Some(jobId), lastFailure := None)
                  case Cancelled => d.(attempts := d.attempts + 1, jobId := Some(jobId), lastFailure := Some("cancelled_after_enqueue"))
                  case Enqueued => d
    {
      if k in dispatches && dispatches[k].state.DispatchPending? {
        dispatches := dispatches[k :=
          dispatches[k].(state := Enqueued, attempts := dispatches[k].attempts + 1, jobId := Some(jobId), lastFailure := None)];
        return true;
      }
      if k in dispatches && dispatches[k].state.Cancelled? {
        dispatches := dispatches[k :=
          dispatches[k].(attempts := dispatches[k].attempts + 1, jobId := Some(jobId), lastFailure := Some("cancelled_after_enqueue"))];
      }
      return false;
    }

    method PendingDispatches(organizationId: string, limit: nat,
                             collation: (string, string) -> bool) returns (rows: seq<ScheduleDispatch>)
      requires IsCollation(collation)
      ensures PendingRows(dispatches, organizationId, rows, limit, collation)
    {
      hide IsCollation, Precedes;
      var left := PendingSet(dispatches, organizationId);
      rows := [];
      while |rows| < limit && left != {}
        invariant |rows| <= limit && left <= PendingSet(dispatches, organizationId)
        invariant forall d :: d in rows ==> IsPending(dispatches, organizationId, d) && SlotKey(d) !in left
        invariant forall k :: k in PendingSet(dispatches, organizationId) ==> k in left || JobOf(k, dispatches[k]) in rows
        invariant forall i, j :: 0 <= i < j < |rows| ==> rows[i] != rows[j] && Precedes(SlotKey(rows[i]), SlotKey(rows[j]), collation)
        invariant forall i, k :: 0 <= i < |rows| && k in left ==> Precedes(SlotKey(rows[i]), k, collation)
        decreases |left|
      {
        var k := Earliest(left, collation);
        rows := rows + [JobOf(k, dispatches[k])];
        left := left - {k};
      }
    }

    method PendingDispatchCount(organizationId: string) returns (count: int)
      ensures count == |PendingSet(dispatches, organizationId)|
    {
      count := |PendingSet(dispatches, organizationId)|;
    }

    method RecordDispatchFailure(k: (string, Time), failure: string)
      modifies this`dispatches
      ensures dispatches == Transactions.RecordDispatchFailure(old(dispatches), k, failure)
    {
      if k in dispatches && dispatches[k].state.DispatchPending? {
        dispatches := dispatches[k := dispatches[k].(attempts := dispatches[k].attempts + 1, lastFailure := Some(failure))];
      }
    }
  }

  function PendingSet(ds: Dispatches, organizationId: string): set<(string, Time)> {
    set k | k in ds && ds[k].state.DispatchPending? && ds[k].organizationId == organizationId
  }

  predicate IsPending(ds: Dispatches, organizationId: string, d: ScheduleDispatch) {
    SlotKey(d) in PendingSet(ds, organizationId) && d == JobOf(SlotKey(d), ds[SlotKey(d)])
  }

  /** How the database orders texts: reflexive, transitive, antisymmetric and total. */
  ghost predicate IsCollation(collation: (string, string) -> bool) {
    && (forall a, b :: collation(a, b) || collation(b, a))
    && (forall a, b :: collation(a, b) && collation(b, a) ==> a == b)
    && (forall a, b, c :: collation(a, b) && collation(b, c) ==> collation(a, c))
  }

  /** By scheduled time, and within one instant by rule. */
  predicate Precedes(a: (string, Time), b: (string, Time), collation: (string, string) -> bool) {
    a.1 < b.1 || (a.1 == b.1 && collation(a.0, b.0))
  }

  /** The first pending dispatches of an organization in that order, each once. */
  ghost predicate PendingRows(ds: Dispatches, organizationId: string, rows: seq<ScheduleDispatch>, limit: nat,
                              collation: (string, string) -> bool) {
    && (forall d :: d in rows ==> IsPending(ds, organizationId, d))
    && (forall i, j :: 0 <= i < j < |rows| ==> rows[i] != rows[j] && Precedes(SlotKey(rows[i]), SlotKey(rows[j]), collation))
    && |rows| <= limit
    && (forall k :: k in PendingSet(ds, organizationId) && JobOf(k, ds[k]) !in rows ==> |rows| == limit && NoneAfter(rows, k, collation))
  }

  ghost predicate NoneAfter(rows: seq<ScheduleDispatch>, k: (string, Time), collation: (string, string) -> bool) {
    forall i :: 0 <= i < |rows| ==> Precedes(SlotKey(rows[i]), k, collation)
  }

  lemma PrecedesIsOrder(a: (string, Time), b: (string, Time), c: (string, Time), collation: (string, string) -> bool)
    requires IsCollation(collation)
    ensures Precedes(a, b, collation) || Precedes(b, a, collation)
    ensures Precedes(a, b, collation) && Precedes(b, c, collation) ==> Precedes(a, c, collation)
  {
  }

  method Earliest(slots: set<(string, Time)>, collation: (string, string) -> bool) returns (first: (string, Time))
    requires slots != {} && IsCollation(collation)
    ensures first in slots && forall k :: k in slots ==> Precedes(first, k, collation)
  {
    hide IsCollation, Precedes;
    first :| first in slots;
    PrecedesIsOrder(first, first, first, collation);
    var left := slots - {first};
    while left != {}
      invariant first in slots && left <= slots
      invariant forall k :: k in slots && k !in left ==> Precedes(first, k, collation)
      decreases |left|
    {
      var k :| k in left;
      PrecedesIsOrder(k, first, first, collation);
      PrecedesIsOrder(k, k, k, collation);
      if Precedes(k, first, collation) {
        forall j | Precedes(first, j, collation) ensures Precedes(k, j, collation) {
          PrecedesIsOrder(k, first, j, collation);
        }
        first := k;
      }
      left := left - {k};
    }
  }

  function MarkCancelledUnless(recorded: bool, ds: Dispatches, k: (string, Time), jobId: string): Dispatches {
    if recorded then ds else MarkCancelledEnqueue(ds, k, jobId)
  }

  predicate SameRow(e: Execution, ruleId: string, triggerId: string) {
    e.ruleId == ruleId && e.triggerId == triggerId
  }

  /** A database whose command is reserved and whose rule is written, before the command is finished. */
  ghost function Reserved(saved: Db, scope: Scope, request: Request, rule: Rule): Db {
    saved.(commands := saved.commands[scope := Command(request, None)], rules := saved.rules[request.ruleId := rule])
  }

  lemma FinishesReserved(saved: Db, scope: Scope, request: Request, rule: Rule, next: Option<Time>)
    ensures var reserved := Reserved(saved, scope, request, rule);
            && scope in reserved.commands && reserved.commands[scope].response.None?
            && CommitCommand(saved, scope, request, rule, next)
               == reserved.(commands := reserved.commands[scope := reserved.commands[scope].(response := Some(ResponseTo(request, rule)))],
                            dispatches := ReplacePendingSchedule(reserved.dispatches, request.organizationId, request.ruleId, next))
  {
    hide ReplacePendingSchedule, ResponseTo;
  }

  lemma NoReceiptYet(executionId: string, actions: seq<Action>)
    ensures NewReceipts(executionId, actions[..0]) == map[]
  {
    forall k ensures k !in NewReceipts(executionId, actions[..0]) {
      NewReceiptsContents(executionId, actions[..0], k);
    }
  }

  lemma NextReceipt(executionId: string, actions: seq<Action>, index: nat)
    requires index < |actions|
    ensures NewReceipts(executionId, actions[..index + 1])
            == NewReceipts(executionId, actions[..index])[(executionId, index) :=
                 ActionReceipt(actions[index].kind, ActionPending, 0, ActionKey(executionId, index), None, None)]
  {
    hide ActionKey;
    var longer := NewReceipts(executionId, actions[..index + 1]);
    var shorter := NewReceipts(executionId, actions[..index])[(executionId, index) :=
                     ActionReceipt(actions[index].kind, ActionPending, 0, ActionKey(executionId, index), None, None)];
    forall k ensures (k in longer <==> k in shorter) && (k in longer ==> longer[k] == shorter[k]) {
      NewReceiptsContents(executionId, actions[..index + 1], k);
      NewReceiptsContents(executionId, actions[..index], k);
    }
    assert longer == shorter;
  }

  lemma NothingClaimedYet(db: Db, picked: seq<string>, worker: string, leaseUntil: Time)
    requires forall e :: e in picked ==> e in db.executions
    ensures ClaimAll(db, picked, 0, worker, leaseUntil) == db
  {
  }

  lemma NextClaim(db: Db, picked: seq<string>, i: nat, worker: string, leaseUntil: Time)
    requires i < |picked| && Distinct(picked) && forall e :: e in picked ==> e in db.executions
    ensures var before := ClaimAll(db, picked, i, worker, leaseUntil);
            && picked[i] in before.executions && before.executions[picked[i]] == db.executions[picked[i]]
            && ClaimAll(db, picked, i + 1, worker, leaseUntil) == ClaimOne(before, picked[i], worker, leaseUntil)
  {
    hide ClaimOne;
    DistinctPrefix(picked, i);
    ClaimedNothingElse(db, picked, i, worker, leaseUntil, picked[i]);
  }

  ghost predicate AllRules(rules: RuleTable, matched: seq<(string, string)>) {
    forall n :: 0 <= n < |matched| ==> matched[n].0 in rules
  }

  function IdsOf(matched: seq<(string, string)>): set<string> {
    set m | m in matched :: m.1
  }

  lemma NoIds()
    ensures IdsOf([]) == {}
  {
  }

  lemma MoreIds(matched: seq<(string, string)>, ruleId: string, id: string)
    ensures IdsOf(matched + [(ruleId, id)]) == IdsOf(matched) + {id}
  {
    forall m ensures m in matched + [(ruleId, id)] <==> m in matched || m == (ruleId, id) {
    }
    assert (ruleId, id) in matched + [(ruleId, id)];
  }

  /** The two ways out of event intake. */
  lemma EventAnswer(db: Db, event: Event, triggerId: string, matched: seq<(string, string)>)
    requires MatchedRows(db, event, matched)
    ensures AllRules(db.rules, matched)
    ensures var key := Other(event.dedupeKey);
            ReceiveEvent(db, event, triggerId, matched)
            == if Received(db.triggers, event.organizationId, EventSource, key)
               then Tx(db, Ok(Intake(true, true, ExecutionsFor(db, event.organizationId, EventSource, key))))
               else Tx(InsertExecutions(db.(triggers := db.triggers[triggerId := EventReceipt(event)]), event.organizationId, triggerId, matched, |matched|),
                       Ok(Intake(true, false, IdsOf(matched))))
  {
    hide EventMatches, InsertExecutions, Received, ExecutionsFor, EventReceipt;
    MatchedFacts(db, event, matched);
  }

  // ----- matching rows -----

  /** The matching among the first `n` rows, each with the id made for it. */
  ghost function MatchesIn(rules: RuleTable, event: Event, rows: seq<string>, ids: seq<string>, n: nat): seq<(string, string)>
    requires n <= |rows| == |ids| && forall r :: r in rows ==> r in rules
  {
    if n == 0 then []
    else if EventMatches(rules[rows[n - 1]], event) then MatchesIn(rules, event, rows, ids, n - 1) + [(rows[n - 1], ids[n - 1])]
    else MatchesIn(rules, event, rows, ids, n - 1)
  }

  lemma {:induction false} MatchOrigin(rules: RuleTable, event: Event, rows: seq<string>, ids: seq<string>, n: nat,
                                       i: nat) returns (k: nat)
    requires n <= |rows| == |ids| && (forall r :: r in rows ==> r in rules) && i < |MatchesIn(rules, event, rows, ids, n)|
    ensures k < n && MatchesIn(rules, event, rows, ids, n)[i] == (rows[k], ids[k]) && EventMatches(rules[rows[k]], event)
  {
    hide EventMatches;
    if i < |MatchesIn(rules, event, rows, ids, n - 1)| {
      k := MatchOrigin(rules, event, rows, ids, n - 1, i);
    } else {
      k := n - 1;
    }
  }

  lemma {:induction false} MatchFound(rules: RuleTable, event: Event, rows: seq<string>, ids: seq<string>, n: nat,
                                      k: nat) returns (i: nat)
    requires k < n <= |rows| == |ids| && (forall r :: r in rows ==> r in rules) && EventMatches(rules[rows[k]], event)
    ensures i < |MatchesIn(rules, event, rows, ids, n)| && MatchesIn(rules, event, rows, ids, n)[i] == (rows[k], ids[k])
  {
    hide EventMatches;
    if k < n - 1 {
      i := MatchFound(rules, event, rows, ids, n - 1, k);
    } else {
      i := |MatchesIn(rules, event, rows, ids, n - 1)|;
    }
  }

  lemma {:induction false} MatchesAreFresh(db: Db, event: Event, rows: seq<string>, ids: seq<string>, n: nat)
    requires n <= |rows| == |ids| && (forall r :: r in rows ==> r in db.rules) && Distinct(rows) && FreshIds(db.executions, ids)
    ensures FreshRows(db, MatchesIn(db.rules, event, rows, ids, n))
  {
    hide EventMatches;
    if n > 0 {
      MatchesAreFresh(db, event, rows, ids, n - 1);
      var earlier := MatchesIn(db.rules, event, rows, ids, n - 1);
      forall i | 0 <= i < |earlier| ensures earlier[i].0 != rows[n - 1] && earlier[i].1 != ids[n - 1] {
        var k := MatchOrigin(db.rules, event, rows, ids, n - 1, i);
      }
    }
  }

  lemma AllMatched(db: Db, event: Event, rows: seq<string>, ids: seq<string>)
    requires EventRows(db.rules, event.organizationId, rows) && |ids| == |rows| && FreshIds(db.executions, ids)
    ensures MatchedRows(db, event, MatchesIn(db.rules, event, rows, ids, |rows|))
  {
    hide ConditionsMatch, Distinct, FreshIds, MatchesIn;
    var matched := MatchesIn(db.rules, event, rows, ids, |rows|);
    MatchesAreFresh(db, event, rows, ids, |rows|);
    forall r ensures r in MatchingRules(db.rules, event) <==> exists i :: 0 <= i < |matched| && matched[i].0 == r {
      if r in MatchingRules(db.rules, event) {
        assert r in rows;
        var k :| 0 <= k < |rows| && rows[k] == r;
        var i := MatchFound(db.rules, event, rows, ids, |rows|, k);
        assert matched[i].0 == r;
      }
      if i: nat :| i < |matched| && matched[i].0 == r {
        var k := MatchOrigin(db.rules, event, rows, ids, |rows|, i);
      }
    }
  }

  lemma RowMatches(rules: RuleTable, event: Event, rows: seq<string>, i: nat)
    requires EventRows(rules, event.organizationId, rows) && i < |rows|
    ensures rows[i] in rules
    ensures EventMatches(rules[rows[i]], event) <==>
              && event.eventType in rules[rows[i]].trigger.eventTypes
              && ConditionsMatch(ConditionsJson(rules[rows[i]].conditions), EventJson(event))
  {
    hide ConditionsMatch, Distinct;
    assert rows[i] in rows;
  }

  lemma NoMatchYet(db: Db, event: Event, triggerId: string, rows: seq<string>, ids: seq<string>)
    requires |ids| == |rows| && forall r :: r in rows ==> r in db.rules
    ensures MatchesIn(db.rules, event, rows, ids, 0) == []
    ensures InsertExecutions(db, event.organizationId, triggerId, [], 0) == db
  {
  }

  lemma SkipsMismatch(rules: RuleTable, event: Event, rows: seq<string>, ids: seq<string>, i: nat)
    requires i < |rows| == |ids| && (forall r :: r in rows ==> r in rules) && !EventMatches(rules[rows[i]], event)
    ensures MatchesIn(rules, event, rows, ids, i + 1) == MatchesIn(rules, event, rows, ids, i)
  {
    hide EventMatches;
  }

  lemma {:induction false} InsertExecutionsPrefix(db: Db, organizationId: string, triggerId: string,
                                                  a: seq<(string, string)>, b: seq<(string, string)>, n: nat)
    requires n <= |a| && n <= |b| && a[..n] == b[..n] && forall i :: 0 <= i < n ==> a[i].0 in db.rules
    ensures (forall i :: 0 <= i < n ==> b[i].0 in db.rules) && InsertExecutions(db, organizationId, triggerId, a, n) == InsertExecutions(db, organizationId, triggerId, b, n)
  {
    hide InsertExecution;
    forall i | 0 <= i < n ensures a[i] == b[i] {
      assert a[i] == a[..n][i] && b[i] == b[..n][i];
    }
    if n > 0 {
      InsertExecutionsPrefix(db, organizationId, triggerId, a, b, n - 1);
    }
  }

  /** A matching row has no execution for the new trigger yet, and the next step gives it one. */
  lemma NextMatch(db: Db, event: Event, triggerId: string, rows: seq<string>, ids: seq<string>, i: nat)
    requires i < |rows| == |ids| && (forall r :: r in rows ==> r in db.rules) && Distinct(rows) && FreshIds(db.executions, ids)
    requires EventMatches(db.rules[rows[i]], event) && forall e :: e in db.executions ==> db.executions[e].triggerId != triggerId
    ensures var done := MatchesIn(db.rules, event, rows, ids, i);
            && AllRules(db.rules, done)
            && MatchesIn(db.rules, event, rows, ids, i + 1) == done + [(rows[i], ids[i])]
            && var before := InsertExecutions(db, event.organizationId, triggerId, done, |done|);
            && InsertExecutions(db, event.organizationId, triggerId, done + [(rows[i], ids[i])], |done| + 1)
               == InsertExecution(before, event.organizationId, rows[i], triggerId, db.rules[rows[i]].actions, ids[i])
            && forall e :: e in before.executions ==> !SameRow(before.executions[e], rows[i], triggerId)
  {
    hide EventMatches, InsertExecution;
    var done := MatchesIn(db.rules, event, rows, ids, i);
    MatchesAreFresh(db, event, rows, ids, i);
    var before := InsertExecutions(db, event.organizationId, triggerId, done, |done|);
    InsertExecutionsPrefix(db, event.organizationId, triggerId, done, done + [(rows[i], ids[i])], |done|);
    forall e | e in before.executions ensures !SameRow(before.executions[e], rows[i], triggerId) {
      if n: nat :| n < |done| && done[n].1 == e {
        InsertedRow(db, event.organizationId, triggerId, done, |done|, n);
        var k := MatchOrigin(db.rules, event, rows, ids, i, n);
      } else {
        InsertedNothingElse(db, event.organizationId, triggerId, done, |done|, e);
      }
    }
  }
}
