/** Management commands over runs: replays, conflicts, and revisions as a conservation law. */
module CommandLaws {
  import opened Results
  import opened Schedule
  import opened Rules
  import opened Payloads
  import opened Targets
  import opened Keys
  import opened Tables
  import opened Transactions
  import opened Invariants
  import opened Preservation
  import opened Runs
  import opened Frames
  import opened History
  import opened Intakes

  /** A step that commits a command: the reservation was new and every statement succeeded. */
  ghost predicate Commits(db: Db, op: Op)
    requires Enabled(db, op)
  {
    op.ManageOp? && op.scope !in db.commands && op.scope in Apply(db, op).commands
  }

  lemma CommitFacts(db: Db, op: Op)
    requires Enabled(db, op) && Commits(db, op)
    ensures var tx := HandleCommand(db, op.scope, op.request, op.clock, op.now, op.rowSeq);
            && ValidRequest(op.request, op.scope.idempotencyKey)
            && tx.reply.Ok? && tx.db == Apply(db, op)
            && tx.db.commands == db.commands[op.scope := Command(op.request, Some(tx.reply.value))]
            && ChangedRule(db.rules, op.request, op.clock, op.now, op.rowSeq).Ok?
            && tx.db.rules == db.rules[op.request.ruleId := ChangedRule(db.rules, op.request, op.clock, op.now, op.rowSeq).value.0]
  {
    hide ChangedRule, ValidRequest, ReplacePendingSchedule;
  }

  /** A repeated command answers the stored response and changes nothing, in every later state of the run. */
  lemma ReplaysRepeatTheResponse(states: seq<Db>, ops: seq<Op>, i: nat, j: nat, clock: Time, now: Time, rowSeq: int)
    requires Run(states, ops) && i < |ops| && i < j < |states| && Commits(states[i], ops[i])
    requires Inv(states[0])
    ensures var op := ops[i];
            HandleCommand(states[j], op.scope, op.request, clock, now, rowSeq)
            == Tx(states[j], HandleCommand(states[i], op.scope, op.request, op.clock, op.now, op.rowSeq).reply)
  {
    hide Inv, ValidRequest, ChangedRule, RulesLater, ExecutionsLater, AttemptsLater, ReceiptsLater, DispatchesLater,
         CommitCommand, HandleCommand;
    CommitFacts(states[i], ops[i]);
    LaterOverRuns(states, ops, i + 1, j);
    assert states[i + 1].commands[ops[i].scope] == states[j].commands[ops[i].scope];
    ReplayOfStored(states[j], ops[i].scope, ops[i].request, clock, now, rowSeq);
  }

  lemma ReplayOfStored(db: Db, scope: Scope, request: Request, clock: Time, now: Time, rowSeq: int)
    requires scope in db.commands && ValidRequest(request, scope.idempotencyKey) && db.commands[scope].response.Some?
    ensures HandleCommand(db, scope, request, clock, now, rowSeq)
            == Tx(db, if db.commands[scope].request == request then Ok(db.commands[scope].response.value) else Err(IdempotencyConflict))
  {
    hide ValidRequest, ChangedRule, CommitCommand;
  }

  /** In a reachable state a stored command always has its response: only a different request conflicts. */
  lemma ConflictIffRequestDiffers(db: Db, scope: Scope, request: Request)
    requires scope in db.commands
    requires Inv(db)
    ensures ReserveCommand(db.commands, scope, request).Conflict? <==> db.commands[scope].request != request
    ensures db.commands[scope].response.Some?
  {
    hide References, Ledger, DispatchKeys, TriggersOk, IntakeOk, Leases, ReceiptsOk, NamesOk, RulesValid, SnapshotsValid;
    assert CommandOk(scope, db.commands[scope], db.rules);
  }

  /** Of all commands that name the same revision of the same rule, at most one ever commits. */
  lemma OneCommitPerRevision(states: seq<Db>, ops: seq<Op>, i: nat, j: nat)
    requires Run(states, ops) && i < j < |ops| && Commits(states[i], ops[i]) && Commits(states[j], ops[j])
    requires Inv(states[0])
    ensures !SameStep(ops[i].request, ops[j].request)
  {
    hide Inv, ValidRequest, ChangedRule, RulesLater, ExecutionsLater, AttemptsLater, ReceiptsLater, DispatchesLater,
         CommitCommand, HandleCommand;
    CommitFacts(states[i], ops[i]);
    CommitFacts(states[j], ops[j]);
    LaterOverRuns(states, ops, i + 1, j);
    assert ops[i].scope in states[j].commands;
    InvariantOverRuns(states, ops, j + 1);
    StepsAreDistinct(states[j + 1], ops[i].scope, ops[j].scope);
  }

  lemma StepsAreDistinct(db: Db, s: Scope, t: Scope)
    requires s in db.commands && t in db.commands && s != t
    requires Inv(db)
    ensures !SameStep(db.commands[s].request, db.commands[t].request)
  {
    hide References, Ledger, DispatchKeys, TriggersOk, IntakeOk, Leases, ReceiptsOk, NamesOk, RulesValid, SnapshotsValid;
  }

  // ----- revisions -----

  lemma OnlyCommandsAndAdvancesWriteRules(db: Db, op: Op)
    requires !op.ManageOp? && !op.CompleteOp? && Enabled(db, op)
    ensures Apply(db, op).rules == db.rules && Apply(db, op).commands == db.commands
  {
    hide Apply, Enabled;
    StepWrites(db, op);
  }

  lemma AdvanceKeepsRevisions(db: Db, ruleId: string, payload: Payload, now: Time, r: string)
    requires AdvanceSchedule(db, ruleId, payload, now).Ok?
    ensures var after := AdvanceSchedule(db, ruleId, payload, now).value;
            && after == db.(rules := after.rules, dispatches := after.dispatches) && after.rules.Keys == db.rules.Keys
            && (r in db.rules ==> after.rules[r] == db.rules[r].(nextFireAt := after.rules[r].nextFireAt, updatedAt := after.rules[r].updatedAt))
  {
    hide PayloadJson, ReplacePendingSchedule;
  }

  /** Completing an execution may move its rule's next fire, and nothing else of any rule. */
  lemma CompletionKeepsRevisions(db: Db, claim: Claim, succeeded: bool, failure: Option<string>, now: Time, r: string)
    ensures var after := CompleteExecution(db, claim, succeeded, failure, now).db;
            && after.commands == db.commands && after.rules.Keys == db.rules.Keys
            && (r in db.rules ==> after.rules[r] == db.rules[r].(nextFireAt := after.rules[r].nextFireAt, updatedAt := after.rules[r].updatedAt))
  {
    hide AdvanceSchedule;
    if HoldsLease(db.executions, claim, now) {
      var ended := EndAttempt(db, claim, if succeeded then Succeeded else Failed, if succeeded then AttemptSucceeded else AttemptFailed, failure);
      if AdvanceSchedule(ended, claim.ruleId, claim.payload, now).Ok? {
        AdvanceKeepsRevisions(ended, claim.ruleId, claim.payload, now, r);
      }
    }
  }

  lemma CommitChangesRevision(db: Db, op: Op, r: string)
    requires Enabled(db, op) && Commits(db, op) && r in Apply(db, op).rules
    requires Inv(db)
    ensures r in db.rules ==> Apply(db, op).rules[r].revision == db.rules[r].revision + if Mutates(op.request, r) then 1 else 0
    ensures r !in db.rules ==> Apply(db, op).rules[r].revision == 1 && !Mutates(op.request, r)
  {
    hide References, Ledger, DispatchKeys, TriggersOk, IntakeOk, Leases, ReceiptsOk, CommandsOk, NamesOk, RulesValid,
         SnapshotsValid,
      ChangedRule, ValidRequest, HandleCommand;
    CommitFacts(db, op);
    ChangedRuleSteps(db.rules, op.request, op.clock, op.now, op.rowSeq, op.scope.idempotencyKey);
  }

  lemma NoCommitNoChange(db: Db, op: Op)
    requires Enabled(db, op) && op.ManageOp? && !Commits(db, op)
    ensures Apply(db, op) == db
  {
    hide ChangedRule, ValidRequest;
  }

  /** How many of the first `i` steps committed an update, an enablement change or a deletion of a rule. */
  ghost function CommittedMutations(states: seq<Db>, ops: seq<Op>, i: nat, r: string): nat
    requires Run(states, ops) && i <= |ops|
  {
    if i == 0 then 0
    else CommittedMutations(states, ops, i - 1, r)
         + if Commits(states[i - 1], ops[i - 1]) && Mutates(ops[i - 1].request, r) then 1 else 0
  }

  lemma StepRevision(db: Db, op: Op, r: string)
    requires Enabled(db, op)
    requires Inv(db)
    ensures var after := Apply(db, op).rules;
            var step := if Commits(db, op) && Mutates(op.request, r) then 1 else 0;
            && (r in db.rules ==> r in after && after[r].revision == db.rules[r].revision + step)
            && (r !in db.rules && r in after ==> after[r].revision == 1 && step == 0)
            && (r !in db.rules && r !in after ==> step == 0)
  {
    hide Inv, HandleCommand, ChangedRule, ValidRequest, CompleteExecution, ReceiveEvent, ReceiveTimer, ClaimExecutions,
         ReleaseExecution, EndAttempt;
    match op
    case ManageOp(_, _, _, _, _) =>
      if Commits(db, op) {
        CommitFacts(db, op);
        if r in Apply(db, op).rules {
          CommitChangesRevision(db, op, r);
        }
      } else {
        NoCommitNoChange(db, op);
      }
    case CompleteOp(claim, succeeded, failure, now) =>
      CompletionKeepsRevisions(db, claim, succeeded, failure, now, r);
    case _ => OnlyCommandsAndAdvancesWriteRules(db, op);
  }

  /** A rule's revision is one plus the number of distinct commands that changed it since it was created;
      replays, refused commands and schedule advances never count. */
  lemma {:induction false} RevisionsCountCommands(states: seq<Db>, ops: seq<Op>, i: nat, r: string)
    requires Run(states, ops) && i < |states| && states[0] == EMPTY
    ensures r in states[i].rules ==> states[i].rules[r].revision == 1 + CommittedMutations(states, ops, i, r)
    ensures r !in states[i].rules ==> CommittedMutations(states, ops, i, r) == 0
  {
    hide Inv, Enabled, Apply, Commits;
    if i > 0 {
      RevisionsCountCommands(states, ops, i - 1, r);
      InvariantOverRuns(states, ops, i - 1);
      StepRevision(states[i - 1], ops[i - 1], r);
    }
  }
}
