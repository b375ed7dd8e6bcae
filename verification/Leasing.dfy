/** What a lease is worth: nobody else claims the execution while it lasts, only its holder ends it, and only in time. */
module Leasing {
  import opened Results
  import opened Text
  import opened Schedule
  import opened Rules
  import opened Payloads
  import opened Targets
  import opened Keys
  import opened Tables
  import opened Transactions
  import opened Invariants
  import opened Preservation
  import opened Runs
  import opened Frames
  import opened History
  import opened Intakes
  import opened Effects
  import opened RuleSteps

  /** What a claiming transaction gave its worker: executions of an organization, until an instant. */
  datatype Lease = Lease(organizationId: string, until: Time)

  /** The claim's worker holds the lease it was given. */
  ghost predicate Held(executions: Executions, c: Claim, lease: Lease) {
    && c.executionId in executions
    && var e := executions[c.executionId];
       e.status.Running? && e.attempts == c.attempt && e.leaseOwner == Some(c.worker) && e.leaseUntil == Some(lease.until) && e.organizationId == lease.organizationId
  }

  /** Pending again, with a retryable attempt. */
  ghost predicate ReleasedForRetry(db: Db, c: Claim) {
    && c.executionId in db.executions && db.executions[c.executionId].status.Pending?
    && (c.executionId, c.attempt) in db.attempts && db.attempts[(c.executionId, c.attempt)].status.Retryable?
  }

  lemma HeldIsHeld(db: Db, claim: Claim, lease: Lease, now: Time)
    requires Held(db.executions, claim, lease)
    ensures now <= lease.until ==> HoldsLease(db.executions, claim, now)
  {
  }

  // ----- exclusiveness -----

  /** A held execution can be claimed exactly once its lease is over. */
  lemma HeldIsPickedIff(db: Db, c: Claim, lease: Lease, now: Time)
    requires Held(db.executions, c, lease) && db.executions[c.executionId].triggerId in db.triggers
    ensures PickedRows(db, lease.organizationId, [c.executionId], 1, now) <==> now > lease.until
  {
    assert c.executionId in [c.executionId];
  }

  /** So no claim within the lease touches it, whatever else that claim picks. */
  lemma LeaseExcludesOthers(db: Db, organizationId: string, picked: seq<string>, limit: int, now: Time, c: Claim, lease: Lease)
    requires Held(db.executions, c, lease) && now <= lease.until && PickedRows(db, organizationId, picked, limit, now)
    ensures c.executionId !in picked
  {
    hide Distinct;
  }

  /** A release or a completion with the attempt and worker of a claim. */
  predicate EndsClaim(op: Op, c: Claim) {
    && (op.ReleaseOp? || op.CompleteOp?)
    && op.claim.executionId == c.executionId && op.claim.attempt == c.attempt && op.claim.worker == c.worker
  }

  lemma StepKeepsHeld(db: Db, op: Op, c: Claim, lease: Lease)
    requires Enabled(db, op) && Held(db.executions, c, lease) && !EndsClaim(op, c) && (op.ClaimOp? ==> op.now <= lease.until)
    requires Inv(db)
    ensures Held(Apply(db, op).executions, c, lease)
  {
    hide Inv, Apply, Enabled;
    StepMovesExecution(db, op, c.executionId);
    if op.ClaimOp? {
      ClaimPicks(db, op);
      LeaseExcludesOthers(db, op.organizationId, op.picked, op.limit, op.now, c, lease);
    }
  }

  lemma ClaimPicks(db: Db, op: Op)
    requires op.ClaimOp? && Enabled(db, op)
    ensures PickedRows(db, op.organizationId, op.picked, op.limit, op.now)
  {
    hide PickedRows;
  }

  /** While every claim comes within the lease, a held execution stays with its worker and its attempt until that
      worker releases or completes it. */
  lemma {:induction false} HeldUntilEnded(states: seq<Db>, ops: seq<Op>, i: nat, j: nat, c: Claim, lease: Lease)
    requires Run(states, ops) && i <= j < |states| && Held(states[i].executions, c, lease)
    requires forall n :: i <= n < j && ops[n].ClaimOp? ==> ops[n].now <= lease.until
    requires forall n :: i <= n < j ==> !EndsClaim(ops[n], c)
    requires Inv(states[0])
    ensures Held(states[j].executions, c, lease)
    decreases j - i
  {
    hide Inv, Enabled, Apply, Held, EndsClaim;
    if i < j {
      HeldUntilEnded(states, ops, i, j - 1, c, lease);
      InvariantOverRuns(states, ops, j - 1);
      StepKeepsHeld(states[j - 1], ops[j - 1], c, lease);
    }
  }

  // ----- ending -----

  /** The claim's attempt is running, by its worker, and in time. */
  ghost predicate RunsInTime(db: Db, c: Claim, now: Time) {
    && (c.executionId, c.attempt) in db.attempts
    && db.attempts[(c.executionId, c.attempt)].status.AttemptRunning? && db.attempts[(c.executionId, c.attempt)].worker == c.worker
    && c.executionId in db.executions
    && db.executions[c.executionId].leaseUntil.Some? && now <= db.executions[c.executionId].leaseUntil.value
  }

  /** Of a reachable database, a claim holds the lease exactly if its attempt is running, by its worker, and in time. */
  lemma HoldsLeaseIffRunsInTime(db: Db, c: Claim, now: Time)
    requires Inv(db)
    ensures HoldsLease(db.executions, c, now) <==> RunsInTime(db, c, now)
  {
    hide References, Ledger, DispatchKeys, TriggersOk, IntakeOk, ReceiptsOk, CommandsOk, NamesOk, RulesValid, SnapshotsValid;
    if c.executionId in db.executions {
      assert LeaseOk(c.executionId, db.executions[c.executionId], db.attempts);
    }
  }

  /** Of an execution and its attempt, all that a release writes. */
  lemma ReleaseWrites(db: Db, c: Claim, reason: string, now: Time)
    requires Inv(db)
    ensures var tx := ReleaseExecution(db, c, reason, now);
            && (tx.reply.Ok? <==> RunsInTime(db, c, now))
            && (tx.reply.Err? ==> tx.db == db)
            && (tx.reply.Ok? ==> EndedAs(db, tx.db, c, Pending, Retryable, Some(reason)))
            && tx.db.rules == db.rules && tx.db.dispatches == db.dispatches && tx.db.receipts == db.receipts
  {
    hide Inv, HoldsLease;
    HoldsLeaseIffRunsInTime(db, c, now);
    if HoldsLease(db.executions, c, now) {
      LeasedIsKnown(db, c, now);
    }
  }

  lemma LeasedIsKnown(db: Db, c: Claim, now: Time)
    requires HoldsLease(db.executions, c, now)
    ensures c.executionId in db.executions
  {
  }

  /** The claim's execution and attempt ended with this status and failure, free of the lease; all others are as before. */
  ghost predicate EndedAs(a: Db, b: Db, c: Claim, status: ExecutionStatus, attemptStatus: AttemptStatus,
                          failure: Option<string>) {
    var k := (c.executionId, c.attempt);
    && c.executionId in a.executions && k in a.attempts
    && b.executions == a.executions[c.executionId :=
         a.executions[c.executionId].(status := status, lastFailure := failure, leaseOwner := None, leaseUntil := None)]
    && b.attempts == a.attempts[k := a.attempts[k].(status := attemptStatus, failure := failure)]
  }

  /** A completion goes through only in time, and then writes its outcome, and the rule and the dispatches only for a
      timer; otherwise it changes nothing. */
  lemma CompletionWrites(db: Db, c: Claim, succeeded: bool, failure: Option<string>, now: Time)
    requires Inv(db)
    ensures var tx := CompleteExecution(db, c, succeeded, failure, now);
            && (tx.reply.Ok? ==>
                  && RunsInTime(db, c, now)
                  && EndedAs(db, tx.db, c, if succeeded then Succeeded else Failed, if succeeded then AttemptSucceeded else AttemptFailed, failure))
            && (tx.reply.Err? ==> tx.db == db)
            && (RunsInTime(db, c, now) && c.triggerId in db.triggers && db.triggers[c.triggerId].source.EventSource? ==>
                  tx.reply.Ok? && tx.db.rules == db.rules && tx.db.dispatches == db.dispatches)
  {
    hide Inv, HoldsLease, AdvanceSchedule, EndAttempt;
    HoldsLeaseIffRunsInTime(db, c, now);
    if HoldsLease(db.executions, c, now) {
      LeasedIsKnown(db, c, now);
      var status := if succeeded then Succeeded else Failed;
      var attemptStatus := if succeeded then AttemptSucceeded else AttemptFailed;
      EndWrites(db, c, status, attemptStatus, failure, now);
      EndFrame(db, c, status, attemptStatus, failure);
      var ended := EndAttempt(db, c, status, attemptStatus, failure);
      if AdvanceSchedule(ended, c.ruleId, c.payload, now).Ok? {
        AdvanceFrame(ended, c.ruleId, c.payload, now);
      }
    }
  }

  lemma EndWrites(db: Db, c: Claim, status: ExecutionStatus, attemptStatus: AttemptStatus, failure: Option<string>, now: Time)
    requires c.executionId in db.executions && RunsInTime(db, c, now)
    ensures EndedAs(db, EndAttempt(db, c, status, attemptStatus, failure), c, status, attemptStatus, failure)
  {
  }

  /** The next slot of a rule that is at this one. */
  ghost function NextSlot(rule: Rule, slot: Time): Time
    requires rule.trigger.intervalSeconds.Some?
  {
    slot + rule.trigger.intervalSeconds.value * SECOND
  }

  /** In time, a timer execution moves its rule if that is still at its slot: to the slot one interval later and in
      nothing else, and it fails exactly if there is no such instant. A rule that is elsewhere stays where it is. */
  lemma CompletionAdvances(db: Db, c: Claim, succeeded: bool, failure: Option<string>, now: Time)
    requires Genuine(db, c) && RunsInTime(db, c, now) && c.payload.TimerPayload?
    requires Inv(db)
    ensures c.ruleId in db.rules && (Awaits(db.rules, c.payload.organizationId, c.ruleId, c.payload.scheduledFor)
                                     <==> db.rules[c.ruleId].nextFireAt == Some(c.payload.scheduledFor))
    ensures var tx, slot, rule := CompleteExecution(db, c, succeeded, failure, now), c.payload.scheduledFor, db.rules[c.ruleId];
            if rule.nextFireAt != Some(slot) then tx.reply.Ok? && tx.db.rules == db.rules && tx.db.dispatches == db.dispatches
            else
              && rule.trigger.intervalSeconds.Some? && (tx.reply.Ok? <==> Representable(NextSlot(rule, slot)))
              && (tx.reply.Ok? ==>
                    && tx.db.rules == db.rules[c.ruleId := rule.(nextFireAt := Some(Stored(NextSlot(rule, slot))), updatedAt := now)]
                    && tx.db.dispatches == ReplacePendingSchedule(db.dispatches, rule.organizationId, c.ruleId, Some(NextSlot(rule, slot))))
  {
    hide Inv, HoldsLease, EndAttempt, AdvanceSchedule, RunsInTime, ReplacePendingSchedule, Representable;
    HoldsLeaseIffRunsInTime(db, c, now);
    TimerClaim(db, c);
    var status, attemptStatus := if succeeded then Succeeded else Failed, if succeeded then AttemptSucceeded else AttemptFailed;
    EndFrame(db, c, status, attemptStatus, failure);
    AdvanceFromSlot(EndAttempt(db, c, status, attemptStatus, failure), c.ruleId, c.payload, now);
  }

  /** The rule and the trigger of a timer execution's claim. */
  lemma TimerClaim(db: Db, c: Claim)
    requires Genuine(db, c) && c.payload.TimerPayload?
    requires Inv(db)
    ensures c.ruleId in db.rules && db.rules[c.ruleId].organizationId == c.payload.organizationId
    ensures db.triggers[c.triggerId].source.TimerSource?
    ensures db.rules[c.ruleId].nextFireAt.Some? ==> db.rules[c.ruleId].Armable() && db.rules[c.ruleId].trigger.intervalSeconds.Some?
  {
    hide DispatchKeys, Leases, ReceiptsOk, CommandsOk, NamesOk, SnapshotsValid, ValidText, ValidConditions,
         ValidActionsForTrigger;
    assert ExecutionRefers(db.rules, db.triggers, db.executions[c.executionId]);
    assert TriggerOk(db.triggers[c.triggerId]);
    assert ValidRule(db.rules[c.ruleId].name, db.rules[c.ruleId].trigger, db.rules[c.ruleId].conditions, db.rules[c.ruleId].actions);
  }

  lemma AdvanceFromSlot(db: Db, r: string, payload: Payload, now: Time)
    requires payload.TimerPayload? && r in db.rules
    requires db.rules[r].nextFireAt.Some? ==> db.rules[r].Armable() && db.rules[r].trigger.intervalSeconds.Some?
    ensures var rule, slot, after := db.rules[r], payload.scheduledFor, AdvanceSchedule(db, r, payload, now);
            if rule.nextFireAt != Some(slot) then after == Ok(db)
            else if !Representable(NextSlot(rule, slot)) then after.Err?
            else after == Ok(db.(rules := db.rules[r := rule.(nextFireAt := Some(Stored(NextSlot(rule, slot))), updatedAt := now)],
                                 dispatches := ReplacePendingSchedule(db.dispatches, rule.organizationId, r, Some(NextSlot(rule, slot)))))
  {
    hide PayloadJson, Get, ReplacePendingSchedule;
    TimerPayloadTime(payload);
  }

  /** Claiming an execution whose lease is over retires the attempt that ran, with the reason. */
  lemma ClaimRetiresAttempt(db: Db, op: Op, e: string)
    requires op.ClaimOp? && op.picked == [e] && op.limit == 1 && e in db.executions && db.executions[e].triggerId in db.triggers
    requires Claimable(db.executions[e], op.organizationId, op.now) && db.executions[e].attempts < I32_MAX
    requires Inv(db)
    ensures Enabled(db, op)
    ensures RetiresAttempt(db.executions[e], db.attempts, Apply(db, op).attempts, e, op.worker)
  {
    hide Inv, Apply, Enabled, ClaimOne, LeaseOk, RetiresAttempt;
    ClaimsOne(db, op, e);
    LeaseOfRow(db, e);
    ClaimOneAttempts(db, e, op.worker, op.now + op.leaseSeconds * SECOND);
  }

  /** The new attempt runs for its worker; the last one is retryable, with the reason if it was still running. */
  ghost predicate RetiresAttempt(row: Execution, before: Attempts, after: Attempts, e: string, worker: string) {
    var n := row.attempts;
    && (e, n + 1) in after && after[(e, n + 1)] == Attempt(worker, AttemptRunning, None)
    && (row.status.Running? ==>
          (e, n) in before && (e, n) in after && after[(e, n)] == before[(e, n)].(status := Retryable, failure := Some("lease_expired")))
    && (row.status.Pending? && n > 0 ==> (e, n) in before && (e, n) in after && after[(e, n)] == before[(e, n)])
  }

  lemma LeaseOfRow(db: Db, e: string)
    requires e in db.executions
    requires Inv(db)
    ensures LeaseOk(e, db.executions[e], db.attempts)
  {
    hide References, Ledger, DispatchKeys, TriggersOk, IntakeOk, ReceiptsOk, CommandsOk, NamesOk, RulesValid, SnapshotsValid;
  }

  lemma ClaimOneAttempts(db: Db, e: string, worker: string, leaseUntil: Time)
    requires e in db.executions && LeaseOk(e, db.executions[e], db.attempts)
    ensures RetiresAttempt(db.executions[e], db.attempts, ClaimOne(db, e, worker, leaseUntil).attempts, e, worker)
  {
  }

  // ----- claims among other workers -----

  /** Where a claim got to: its execution ended, was released for a retry, is still held under the same lease, or
      was claimed again. */
  ghost predicate Settled(db: Db, c: Claim, lease: Lease) {
    && c.executionId in db.executions
    && var e := db.executions[c.executionId];
       || e.attempts > c.attempt
       || (e.attempts == c.attempt && (e.Terminal() || ReleasedForRetry(db, c) || Held(db.executions, c, lease)))
  }

  lemma StepSettles(db: Db, op: Op, c: Claim, lease: Lease)
    requires Enabled(db, op) && Settled(db, c, lease) && c.attempt > 0
    requires Inv(db)
    ensures Settled(Apply(db, op), c, lease)
  {
    hide Inv, Apply, Enabled, IsLeasedTo, RulesLater, AttemptsLater, ReceiptsLater, DispatchesLater, Kept, ReleasedForRetry;
    StepIsLater(db, op);
    StepMovesExecution(db, op, c.executionId);
    StepKeepsInvariant(db, op);
    if db.executions[c.executionId].attempts == c.attempt {
      PendingIsReleased(db, c);
    }
    if Apply(db, op).executions[c.executionId].attempts == c.attempt {
      PendingIsReleased(Apply(db, op), c);
    }
    assert ExecutionLater(db.executions[c.executionId], Apply(db, op).executions[c.executionId]);
  }

  lemma PendingIsReleased(db: Db, c: Claim)
    requires c.executionId in db.executions && db.executions[c.executionId].attempts == c.attempt && c.attempt > 0
    requires Inv(db)
    ensures ReleasedForRetry(db, c) <==> db.executions[c.executionId].status.Pending?
  {
    hide References, Ledger, DispatchKeys, TriggersOk, IntakeOk, ReceiptsOk, CommandsOk, NamesOk, RulesValid, SnapshotsValid;
    assert LeaseOk(c.executionId, db.executions[c.executionId], db.attempts);
  }

  lemma HeldAttempt(db: Db, c: Claim, lease: Lease)
    requires Held(db.executions, c, lease)
    requires Inv(db)
    ensures c.attempt > 0 && Settled(db, c, lease)
  {
    hide References, Ledger, DispatchKeys, TriggersOk, IntakeOk, ReceiptsOk, CommandsOk, NamesOk, RulesValid, SnapshotsValid;
    assert LeaseOk(c.executionId, db.executions[c.executionId], db.attempts);
  }

  /** With any other workers in between, a claim once held is at every later state ended, released for a retry, still
      held under its lease, or overtaken by a later claim: no execution is lost. */
  lemma {:induction false} ClaimsAreNeverLost(states: seq<Db>, ops: seq<Op>, i: nat, j: nat, c: Claim, lease: Lease)
    requires Run(states, ops) && i <= j < |states| && Held(states[i].executions, c, lease)
    requires Inv(states[0])
    ensures Settled(states[j], c, lease)
    decreases j - i
  {
    hide Inv, Enabled, Apply, ReleasedForRetry, Held;
    InvariantOverRuns(states, ops, i);
    HeldAttempt(states[i], c, lease);
    if i < j {
      ClaimsAreNeverLost(states, ops, i, j - 1, c, lease);
      InvariantOverRuns(states, ops, j - 1);
      StepSettles(states[j - 1], ops[j - 1], c, lease);
    }
  }
}
