/** The plugin's own loops: running a claimed execution's actions, flushing schedules to Jobs, and reconciling an
    organization. Other workers do not interfere here; what they may do is the subject of `Workers`. */
module Reconciling {
  import opened Results
  import opened Text
  import opened Schedule
  import opened Rules
  import opened Payloads
  import opened Targets
  import opened Keys
  import opened Tables
  import opened Transactions
  import opened Invariants
  import opened Preservation
  import opened Runs
  import opened Frames
  import opened History
  import opened Intakes
  import opened Effects
  import opened Dispatching
  import opened Workers
  import opened Safety
  import opened Shape
  import opened Storage
  import opened Leasing
  import opened Turns

  datatype Reconciled = Reconciled(claimed: int, succeeded: int, failed: int, scheduleEnqueued: int, schedulePending: int)

  /** How far a batch got: all of it, up to a claim whose action ended in a runtime failure, or up to a claim
      that storage refused to end. */
  datatype Stop = Finished | Suspended(position: nat) | Unended(position: nat)

  function Slots(rows: seq<ScheduleDispatch>): set<(string, Time)> {
    set d | d in rows :: SlotKey(d)
  }

  ghost predicate HeldFrom(executions: Executions, claims: seq<Claim>, from: nat, lease: Lease) {
    forall i :: from <= i < |claims| ==> Held(executions, claims[i], lease)
  }

  ghost predicate TerminalUpTo(executions: Executions, claims: seq<Claim>, n: nat) {
    forall i :: 0 <= i < n <= |claims| ==> claims[i].executionId in executions && executions[claims[i].executionId].Terminal()
  }

  /** How many of the first `n` claimed executions are in a status. */
  function Count(executions: Executions, claims: seq<Claim>, n: nat, status: ExecutionStatus): nat
    requires n <= |claims|
  {
    if n == 0 then 0
    else Count(executions, claims, n - 1, status)
         + if claims[n - 1].executionId in executions && executions[claims[n - 1].executionId].status == status then 1 else 0
  }

  ghost predicate Claims(db: Db, claims: seq<Claim>) {
    && (forall i :: 0 <= i < |claims| ==> Genuine(db, claims[i]))
    && (forall i, j :: 0 <= i < j < |claims| ==> claims[i].executionId != claims[j].executionId)
  }

  /** Only receipts of one execution differ. */
  ghost predicate OnlyReceipts(a: Db, b: Db, executionId: string) {
    && b == a.(receipts := b.receipts) && b.receipts.Keys == a.receipts.Keys
    && forall k :: k in a.receipts && k.0 != executionId ==> b.receipts[k] == a.receipts[k]
  }

  ghost predicate OnlyDispatches(a: Db, b: Db) {
    b == a.(dispatches := b.dispatches)
  }

  /** What `reconcile` handed to Jobs before and after its batch, and the dispatches in between. */
  datatype Flushes = Flushes(first: seq<ScheduleDispatch>, second: seq<ScheduleDispatch>, between: Dispatches)

  class Plugin {
    const store: Store
    const maxReconcileItems: int
    const leaseSeconds: int
    const collation: (string, string) -> bool
    /** Every dependency call made and its answer; every job accepted and its id; how many of either failed; the last
        answer of Jobs and the last reading of the clock. */
    ghost var calls: seq<Call>
    ghost var answers: seq<Answer>
    ghost var jobs: seq<ScheduleDispatch>
    ghost var jobIds: seq<string>
    ghost var unavailable: nat
    ghost var unaccepted: nat
    ghost var jobsAnswer: Answer
    ghost var instant: Time

    constructor (store: Store, maxReconcileItems: int, leaseSeconds: int, collation: (string, string) -> bool)
      ensures this.store == store && this.collation == collation && calls == [] && answers == [] && jobs == [] && jobIds == [] && unavailable == unaccepted == 0
    {
      this.store, this.maxReconcileItems, this.leaseSeconds, this.collation := store, maxReconcileItems, leaseSeconds, collation;
      calls, answers, jobs, jobIds, unavailable, unaccepted := [], [], [], [], 0, 0;
    }

    /** A call to Projects or Collaboration; its answer is anything. */
    method Invoke(executionId: string, index: nat, key: Key) returns (answer: Answer)
      modifies this`calls, this`answers, this`unavailable
      ensures calls == old(calls) + [Call(executionId, index, key)] && answers == old(answers) + [answer]
      ensures unavailable == old(unavailable) + if answer.Unavailable? then 1 else 0
    {
      calls := calls + [Call(executionId, index, key)];
      answer := *;
      answers := answers + [answer];
      unavailable := unavailable + if answer.Unavailable? then 1 else 0;
    }

    /** A call to Jobs; what it accepts it keeps. */
    method Enqueue(job: ScheduleDispatch) returns (answer: Answer)
      modifies this`jobs, this`jobIds, this`unaccepted, this`jobsAnswer
      ensures answer == jobsAnswer
      ensures jobs == if answer.Answered? then old(jobs) + [job] else old(jobs)
      ensures jobIds == if answer.Answered? then old(jobIds) + [answer.response] else old(jobIds)
      ensures unaccepted == old(unaccepted) + if answer.Answered? then 0 else 1
    {
      answer := *;
      jobsAnswer := answer;
      if answer.Answered? {
        jobs, jobIds := jobs + [job], jobIds + [answer.response];
      } else {
        unaccepted := unaccepted + 1;
      }
    }

    method Clock() returns (now: Time)
      modifies this`instant
      ensures instant == now
    {
      now := *;
      instant := now;
    }

    /** `flush_schedules`: every listed dispatch is handed to Jobs and then recorded, until Jobs fails. */
    method FlushSchedules(organizationId: string, limit: nat) returns (reply: Result<int>, ghost rows: seq<ScheduleDispatch>)
      requires store.Valid() && IsCollation(collation)
      modifies store, this`jobs, this`jobIds, this`unaccepted, this`jobsAnswer
      ensures store.Valid() && OnlyDispatches(old(store.View()), store.View())
      ensures PendingRows(old(store.dispatches), organizationId, rows, limit, collation)
      ensures var n := if reply.Ok? then |rows| else |jobs| - |old(jobs)|;
              && 0 <= n <= |rows| && jobs == old(jobs) + rows[..n]
              && EnqueuedSet(store.dispatches) == EnqueuedSet(old(store.dispatches)) + Slots(rows[..n])
              && |EnqueuedSet(store.dispatches)| == |EnqueuedSet(old(store.dispatches))| + n
              && PendingSet(store.dispatches, organizationId) == PendingSet(old(store.dispatches), organizationId) - Slots(rows[..n])
              && |jobIds| == |old(jobIds)| + n && Marked(old(store.dispatches), store.dispatches, rows, jobIds[|old(jobIds)|..], n)
              && (reply.Ok? ==> reply.value == n && OthersSame(old(store.dispatches), store.dispatches, rows, n))
              && (reply.Err? ==>
                    && reply == Err(Runtime) && n < |rows| && !jobsAnswer.Answered?
                    && OthersSame(old(store.dispatches), store.dispatches, rows, n + 1)
                    && IsNoted(old(store.dispatches), store.dispatches, SlotKey(rows[n]), jobsAnswer))
      ensures unaccepted == old(unaccepted) + if reply.Ok? then 0 else 1
    {
      hide Inv, JobOf, EnqueuedSet, PendingSet, Slots, SlotKey, PendingRows, IsCollation, Precedes, DispatchStep, Flushed,
           Marked, OthersSame, EnqueuedRow,
           NotedRow, IsNoted;
      ghost var before := store.View();
      var dispatches := store.PendingDispatches(organizationId, limit, collation);
      rows := dispatches;
      var enqueued := 0;
      NothingFlushed(before.dispatches, organizationId, rows);
      NothingMarked(before.dispatches, rows);
      assert jobIds[|old(jobIds)|..] == [];
      for i := 0 to |dispatches|
        invariant store.Valid() && OnlyDispatches(before, store.View())
        invariant enqueued == i && jobs == old(jobs) + rows[..i]
        invariant Flushed(before.dispatches, store.dispatches, organizationId, rows, i)
        invariant |jobIds| == |old(jobIds)| + i && Marked(before.dispatches, store.dispatches, rows, jobIds[|old(jobIds)|..], i)
        invariant old(jobIds) <= jobIds && OthersSame(before.dispatches, store.dispatches, rows, i)
        invariant unaccepted == old(unaccepted)
      {
        ghost var turn, ids := store.dispatches, jobIds;
        PendingStill(before.dispatches, turn, organizationId, rows, limit, collation, i);
        PendingIsThere(turn, organizationId, SlotKey(rows[i]));
        var recorded := FlushOne(organizationId, dispatches[i]);
        FlushEnds(before.dispatches, turn, store.dispatches, organizationId, rows, limit, collation, i, recorded.Ok?);
        MarksOne(before.dispatches, turn, store.dispatches, organizationId, rows, limit, collation, ids[|old(jobIds)|..],
                 jobIds[|old(jobIds)|..], i, recorded.Ok?, jobsAnswer);
        if recorded.Err? {
          FlushedSets(before.dispatches, store.dispatches, organizationId, rows, i);
          return Err(recorded.failure), rows;
        }
        if recorded.value {
          enqueued := enqueued + 1;
        }
      }
      assert rows[..|rows|] == rows;
      FlushedSets(before.dispatches, store.dispatches, organizationId, rows, |rows|);
      reply := Ok(enqueued);
    }

    /** One turn of that loop: whether the dispatch was recorded as enqueued. */
    method FlushOne(ghost organizationId: string, dispatch: ScheduleDispatch) returns (reply: Result<bool>)
      requires store.Valid() && SlotKey(dispatch) in PendingSet(store.dispatches, organizationId)
      modifies store, this`jobs, this`jobIds, this`unaccepted, this`jobsAnswer
      ensures store.Valid() && OnlyDispatches(old(store.View()), store.View())
      ensures reply.Ok? ==>
                && reply.value && jobs == old(jobs) + [dispatch] && |jobIds| == |old(jobIds)| + 1 && old(jobIds) <= jobIds
                && store.dispatches == old(store.dispatches)[SlotKey(dispatch) := EnqueuedRow(old(store.dispatches)[SlotKey(dispatch)], jobIds[|old(jobIds)|])]
                && EnqueuedSet(store.dispatches) == EnqueuedSet(old(store.dispatches)) + {SlotKey(dispatch)}
                && SlotKey(dispatch) !in EnqueuedSet(old(store.dispatches))
                && PendingSet(store.dispatches, organizationId) == PendingSet(old(store.dispatches), organizationId) - {SlotKey(dispatch)}
      ensures unaccepted == old(unaccepted) + if reply.Ok? then 0 else 1
      ensures reply.Err? ==>
                && reply == Err(Runtime) && jobs == old(jobs) && jobIds == old(jobIds)
                && !jobsAnswer.Answered?
                && store.dispatches == old(store.dispatches)[SlotKey(dispatch) := NotedRow(old(store.dispatches)[SlotKey(dispatch)], ReasonOf(jobsAnswer))]
                && EnqueuedSet(store.dispatches) == EnqueuedSet(old(store.dispatches))
                && PendingSet(store.dispatches, organizationId) == PendingSet(old(store.dispatches), organizationId)
    {
      hide Inv, EnqueuedSet, SlotKey;
      var slot := SlotKey(dispatch);
      ghost var now := store.View();
      var answer := Enqueue(dispatch);
      if answer.Answered? {
        var recorded := store.MarkDispatchEnqueued(slot, answer.response);
        DispatchOpKeepsInvariant(now, MarkEnqueuedOp(slot, answer.response), slot);
        EnqueuesOne(now.dispatches, organizationId, slot, answer.response);
        return Ok(recorded);
      }
      var failure := if answer.Unavailable? then "jobs_runtime_failure" else "jobs_contract_rejected";
      store.RecordDispatchFailure(slot, failure);
      DispatchOpKeepsInvariant(now, RecordFailureOp(slot, failure), slot);
      NotesFailure(now.dispatches, organizationId, slot, failure);
      assert store.dispatches == now.dispatches[slot := NotedRow(now.dispatches[slot], ReasonOf(answer))];
      return Err(Runtime);
    }

    /** `execute_actions`: `stop` turns were taken. Each action that had not succeeded and has a target was called, once,
        in order and with its stored key; what was answered is on its receipt; and the first refusal or failure ended
        the loop. */
    method ExecuteActions(claim: Claim) returns (outcome: Outcome, ghost stop: nat)
      requires store.Valid() && Genuine(store.View(), claim)
      modifies store, this`calls, this`answers, this`unavailable
      ensures store.Valid() && OnlyReceipts(old(store.View()), store.View(), claim.executionId)
      ensures unavailable == old(unavailable) + if outcome.Broken? then 1 else 0
      ensures stop <= |claim.actions| && calls == old(calls) + CallsOf(old(store.receipts), claim, stop)
      ensures |answers| == |old(answers)| + |CallsOf(old(store.receipts), claim, stop)| && old(answers) <= answers
      ensures Said(store.receipts, CallsOf(old(store.receipts), claim, stop), answers[|old(answers)|..])
      ensures outcome.Done? ==> stop == |claim.actions| && AllSucceeded(store.receipts, claim, |claim.actions|)
      ensures !outcome.Done? ==> stop > 0 && StopsAt(old(store.receipts), store.receipts, claim, outcome, stop - 1)
      ensures forall i :: StatusAt(old(store.receipts), (claim.executionId, i)).ActionSucceeded? ==> StatusAt(store.receipts, (claim.executionId, i)).ActionSucceeded?
    {
      hide Inv, Genuine, TargetOf, CallOf, CallsOf, StatusAt, StopsAt, Turned, OnlyReceipts, AllSucceeded, IsTurn, Said, IsCalled;
      ghost var before := store.View();
      NothingTurned(before, claim);
      FewActions(before, claim);
      assert answers[|old(answers)|..] == [];
      for index := 0 to |claim.actions|
        invariant store.Valid() && OnlyReceipts(before, store.View(), claim.executionId) && unavailable == old(unavailable)
        invariant Turned(before.receipts, store.receipts, claim, index)
        invariant calls == old(calls) + CallsOf(before.receipts, claim, index)
        invariant |answers| == |old(answers)| + |CallsOf(before.receipts, claim, index)| && old(answers) <= answers
        invariant Said(store.receipts, CallsOf(before.receipts, claim, index), answers[|old(answers)|..])
      {
        GenuineAfterReceipts(before, store.View(), claim);
        ghost var turn, said := store.View(), answers;
        outcome := ExecuteAction(claim, index);
        stop := index + 1;
        ghost var k := (claim.executionId, index);
        OnlyReceiptsOnce(before, turn, store.View(), claim.executionId);
        TurnEnds(before.receipts, turn.receipts, store.receipts, claim, index, answers[|said|..], outcome);
        SaidMore(before.receipts, turn.receipts, store.receipts, claim, index, said[|old(answers)|..], answers[|said|..], outcome);
        assert answers[|old(answers)|..] == said[|old(answers)|..] + answers[|said|..];
        if !outcome.Done? {
          return;
        }
      }
      TurnedAll(before.receipts, store.receipts, claim);
      return Done, |claim.actions|;
    }

    /** One turn of that loop. */
    method ExecuteAction(claim: Claim, index: nat) returns (outcome: Outcome)
      requires store.Valid() && Genuine(store.View(), claim) && index < |claim.actions| <= I32_MAX
      modifies store, this`calls, this`answers, this`unavailable
      ensures store.Valid() && OnlyReceipts(old(store.View()), store.View(), claim.executionId)
      ensures var k := (claim.executionId, index);
              && k in old(store.receipts) && k in store.receipts && store.receipts == old(store.receipts)[k := store.receipts[k]]
              && old(answers) <= answers
              && IsTurn(old(store.receipts)[k], TargetOf(claim, index), answers[|old(answers)|..], store.receipts[k], outcome)
      ensures calls == old(calls) + if IsCalled(old(store.receipts), claim, index) then [CallOf(claim, index)] else []
      ensures unavailable == old(unavailable) + if outcome.Broken? then 1 else 0
    {
      hide Inv, Genuine, Resolve, PayloadJson, ActionKey;
      ghost var before := store.View();
      HasReceipt(before, claim, index);
      var reply := store.ActionStatus(claim.executionId, index);
      CountingKeepsInvariant(before, claim.executionId, index);
      if reply.Err? {
        return Broken;
      }
      StoredKey(before, (claim.executionId, index));
      var (status, key) := reply.value;
      if status.ActionSucceeded? {
        return Done;
      }
      var target := Resolve(index, claim.actions[index], PayloadJson(claim.payload));
      var answer := Rejected("");
      if target.Refused? {
        answer := Rejected(target.detail);
      } else {
        answer := Invoke(claim.executionId, index, key);
      }
      ghost var read := store.View();
      match answer
      case Answered(response) =>
        store.CompleteAction(claim.executionId, index, true, Some(response), None);
        RecordingKeepsInvariant(read, claim.executionId, index, true, Some(response), None);
        return Done;
      case Rejected(detail) =>
        store.CompleteAction(claim.executionId, index, false, None, Some(detail));
        RecordingKeepsInvariant(read, claim.executionId, index, false, None, Some(detail));
        return Refusal(detail);
      case Unavailable => return Broken;
    }

    /** The batch loop of `reconcile`: end each claimed execution, or stop at the first that cannot be ended. */
    method RunBatch(claims: seq<Claim>, ghost lease: Lease) returns (succeeded: int, failed: int, stop: Stop,
                    ghost stops: seq<nat>)
      requires store.Valid() && Claims(store.View(), claims) && HeldFrom(store.executions, claims, 0, lease)
      modifies store, this`calls, this`answers, this`unavailable, this`instant
      ensures store.Valid() && EnqueuedSet(store.dispatches) == EnqueuedSet(old(store.dispatches))
      ensures var n := if stop.Finished? then |claims| else stop.position;
              && n <= |claims| && TerminalUpTo(store.executions, claims, n)
              && succeeded == Count(store.executions, claims, n, Succeeded) && failed == Count(store.executions, claims, n, Failed)
              && succeeded + failed == n && ReportedUpTo(store.View(), claims, n)
      ensures stop.Suspended? ==>
                && stop.position < |claims| && ReleasedForRetry(store.View(), claims[stop.position])
                && store.executions[claims[stop.position].executionId].lastFailure == Some("dependency_runtime_failure")
                && HeldFrom(store.executions, claims, stop.position + 1, lease)
      ensures stop.Unended? ==> stop.position < |claims| && HeldFrom(store.executions, claims, stop.position, lease)
      ensures stop.Unended? ==> instant > lease.until || OutOfRange(store.rules, claims[stop.position].ruleId)
      ensures Stops(claims, stops) && calls == old(calls) + BatchCalls(old(store.receipts), claims, stops)
      ensures |stops| == if stop.Finished? then |claims| else stop.position + 1
      ensures RanThrough(store.executions, claims, stops, if stop.Finished? then |claims| else stop.position)
      ensures (stop.Finished? ==> unavailable == old(unavailable)) && (stop.Suspended? ==> unavailable == old(unavailable) + 1)
    {
      hide Inv, Genuine, Held, SameIdentity, EnqueuedSet, CallOf, CallsOf, Reported, StatusAt, StopsAt, AllSucceeded,
           OnlyReceipts, Untouched,
           BatchCalls, RanThrough, Stops, TerminalUpTo, Count, ReleasedForRetry, Said;
      ghost var begin := store.View();
      succeeded, failed, stops := 0, 0, [];
      BatchBegins(begin, claims);
      for position := 0 to |claims|
        invariant store.Valid() && Claims(store.View(), claims) && HeldFrom(store.executions, claims, position, lease)
        invariant TerminalUpTo(store.executions, claims, position) && ReportedUpTo(store.View(), claims, position)
        invariant succeeded == Count(store.executions, claims, position, Succeeded)
        invariant failed == Count(store.executions, claims, position, Failed)
        invariant succeeded + failed == position
        invariant EnqueuedSet(store.dispatches) == EnqueuedSet(old(store.dispatches)) && unavailable == old(unavailable)
        invariant Untouched(begin.receipts, store.receipts, claims, position) && RanThrough(store.executions, claims, stops, position)
        invariant |stops| == position && Stops(claims, stops) && calls == old(calls) + BatchCalls(begin.receipts, claims, stops)
      {
        ghost var start := store.View();
        var outcome, stopped := ExecuteActions(claims[position]);
        BatchTurn(begin, start, store.View(), claims, stops, stopped);
        stops := stops + [stopped];
        ReceiptsKeepClaims(start, store.View(), claims, claims[position].executionId);
        ghost var executed := store.View();
        ActionsStayReported(start, executed, claims, position);
        var now := Clock();
        if outcome.Broken? {
          var released := store.ReleaseExecution(claims[position], "dependency_runtime_failure", now);
          ReleaseKeepsReports(executed, claims, position, "dependency_runtime_failure", now);
          ReleaseFrees(executed, claims, position, lease, now);
          HeldIsHeld(executed, claims[position], lease, now);
          ReleasesWithReason(executed, claims[position], now);
          ReleaseKeepsRanThrough(executed, claims, stops, position, now);
          return succeeded, failed, if released.Ok? then Suspended(position) else Unended(position), stops;
        }
        var failure := if outcome.Done? then None else Some(outcome.detail);
        var completed := store.CompleteExecution(claims[position], outcome.Done?, failure, now);
        CompletionReports(executed, claims, position, start.receipts, outcome, failure, now);
        CompletionEnds(executed, claims, position, lease, outcome.Done?, failure, now);
        CompletionRanThrough(begin, executed, claims, stops, position, outcome.Done?, failure, now);
        if completed.Err? {
          CompletionRefused(executed, claims[position], lease, outcome.Done?, failure, now);
          return succeeded, failed, Unended(position), stops;
        }
        if outcome.Done? {
          succeeded := succeeded + 1;
        } else {
          failed := failed + 1;
        }
      }
      stop := Finished;
    }

    /** `reconcile`: flush, claim a batch, run it, flush again. `picked` are the rows the claim's query returns. */
    method Reconcile(organizationId: string, caller: string, limit: int, picked: seq<string>, claimedAt: Time)
      returns (reply: Result<Reconciled>, ghost claims: seq<Claim>, ghost stop: Stop, ghost stops: seq<nat>, ghost flushes: Flushes)
      requires store.Valid() && IsCollation(collation) && (1 <= limit <= maxReconcileItems ==> PickedRows(store.View(), organizationId, picked, limit, claimedAt))
      modifies store, this`calls, this`answers, this`unavailable, this`instant, this`jobs, this`jobIds, this`unaccepted, this`jobsAnswer
      ensures store.Valid() && |claims| <= if 1 <= limit <= maxReconcileItems then limit else 0
      ensures var n := if stop.Finished? then |claims| else stop.position;
              && n <= |claims| && TerminalUpTo(store.executions, claims, n) && ReportedUpTo(store.View(), claims, n)
              && (stop.Suspended? ==>
                    && n < |claims| && ReleasedForRetry(store.View(), claims[n])
                    && store.executions[claims[n].executionId].lastFailure == Some("dependency_runtime_failure"))
              && RanThrough(store.executions, claims, stops, n)
              && HeldFrom(store.executions, claims, if stop.Suspended? then n + 1 else n, Lease(organizationId, claimedAt + leaseSeconds * SECOND))
              && ClaimableFrom(store.executions, claims, if stop.Suspended? then n + 1 else n, organizationId, claimedAt + leaseSeconds * SECOND)
      ensures claims == [] || claims == ClaimsHanded(old(store.View()), picked, caller)
      ensures reply.Ok? ==> claims == ClaimsHanded(old(store.View()), picked, caller)
      ensures Stops(claims, stops) && calls == old(calls) + BatchCalls(old(store.receipts), claims, stops)
      ensures reply.Ok? ==>
                && 1 <= limit <= maxReconcileItems && jobs == old(jobs) + flushes.first + flushes.second
                && PendingRows(old(store.dispatches), organizationId, flushes.first, limit, collation)
                && PendingRows(flushes.between, organizationId, flushes.second, limit, collation)
                && EnqueuedSet(flushes.between) == EnqueuedSet(old(store.dispatches)) + Slots(flushes.first)
                && EnqueuedSet(store.dispatches) == EnqueuedSet(flushes.between) + Slots(flushes.second)
                && PendingSet(store.dispatches, organizationId) == PendingSet(flushes.between, organizationId) - Slots(flushes.second)
      ensures stop.Unended? ==> stop.position < |claims|
      ensures stop.Unended? ==> instant > claimedAt + leaseSeconds * SECOND || OutOfRange(store.rules, claims[stop.position].ruleId)
      ensures stop.Suspended? ==> unavailable == old(unavailable) + 1
      ensures stop.Finished? && reply.Err? ==>
                unaccepted == old(unaccepted) + 1 || (claims == [] && NotClaimed(old(store.View()), organizationId, limit, maxReconcileItems, picked))
      ensures reply.Ok? ==>
                && stop.Finished? && unavailable == old(unavailable) && unaccepted == old(unaccepted)
                && reply.value.claimed == |claims| == reply.value.succeeded + reply.value.failed
                && reply.value.succeeded == Count(store.executions, claims, |claims|, Succeeded)
                && reply.value.failed == Count(store.executions, claims, |claims|, Failed)
                && reply.value.scheduleEnqueued == |EnqueuedSet(store.dispatches)| - |EnqueuedSet(old(store.dispatches))|
                && reply.value.schedulePending == |PendingSet(store.dispatches, organizationId)|
      ensures stop.Suspended? ==> reply == Err(Runtime)
    {
      hide Inv, Genuine, EnqueuedSet, PendingSet, PendingRows, IsCollation, Slots, PickedRows, ValidId,
           Transactions.ClaimExecutions,
           TerminalUpTo, HeldFrom, Reported, CallOf, CallsOf, BatchCalls, Stops, RanThrough, Marked, ClaimsHanded;
      claims, stop, stops, flushes := [], Finished, [], Flushes([], [], store.dispatches);
      NothingRan(store.View());
      NoClaims(store.executions, organizationId, claimedAt + leaseSeconds * SECOND);
      if !ValidId(organizationId) || !(1 <= limit <= maxReconcileItems) {
        return Err(InvalidRequest), claims, stop, stops, flushes;
      }
      ghost var start := store.View();
      var enqueued, first := FlushSchedules(organizationId, limit);
      assert first[..|first|] == first;
      if enqueued.Err? {
        return Err(enqueued.failure), claims, stop, stops, flushes;
      }
      ghost var flushed := store.View();
      StillPicked(start, flushed, organizationId, picked, limit, claimedAt);
      var executions := store.ClaimExecutions(organizationId, caller, picked, limit, leaseSeconds, claimedAt);
      ghost var lease := Lease(organizationId, claimedAt + leaseSeconds * SECOND);
      ClaimsAreHeld(flushed, organizationId, caller, picked, limit, leaseSeconds, claimedAt);
      if executions.Err? {
        NoClaims(store.executions, organizationId, claimedAt + leaseSeconds * SECOND);
        return Err(executions.failure), claims, stop, stops, flushes;
      }
      claims := executions.value;
      ClaimsFlushed(start, flushed, organizationId, caller, picked, limit, leaseSeconds, claimedAt);
      var succeeded, failed, stopped, ran_ := RunBatch(executions.value, lease);
      stop, stops := stopped, ran_;
      HeldIsClaimable(store.executions, claims, if stop.Finished? then |claims| else if stop.Suspended? then stop.position + 1 else stop.position, lease);
      if !stopped.Finished? {
        return Err(Runtime), claims, stop, stops, flushes;
      }
      ghost var ran := store.View();
      var more, second := FlushSchedules(organizationId, limit);
      flushes := Flushes(first, second, ran.dispatches);
      assert second[..|second|] == second;
      FlushKeepsReports(ran, store.View(), claims, |claims|);
      if more.Err? {
        return Err(more.failure), claims, stop, stops, flushes;
      }
      var pending := store.PendingDispatchCount(organizationId);
      reply := Ok(Reconciled(|executions.value|, succeeded, failed, enqueued.value + more.value, pending));
    }
  }

  ghost predicate AllSucceeded(receipts: Receipts, claim: Claim, n: int) {
    forall i :: 0 <= i < n ==> StatusAt(receipts, (claim.executionId, i)).ActionSucceeded?
  }

  /** The first actions succeeded, and the other receipts have the status they had. */
  ghost predicate Turned(before: Receipts, now: Receipts, claim: Claim, index: int) {
    && AllSucceeded(now, claim, index)
    && forall i :: !(0 <= i < index) ==> StatusAt(now, (claim.executionId, i)) == StatusAt(before, (claim.executionId, i))
  }

  lemma CountingKeepsInvariant(db: Db, executionId: string, index: int)
    requires Inv(db)
    ensures Inv(ActionStatus(db, executionId, index).db)
  {
    hide Inv;
    ReceiptOpKeepsInvariant(db, ActionStatusOp(executionId, index), (executionId, index));
  }

  lemma RecordingKeepsInvariant(db: Db, executionId: string, index: int, succeeded: bool, response: Option<string>,
                                failure: Option<string>)
    requires Inv(db)
    ensures Inv(CompleteAction(db, executionId, index, succeeded, response, failure))
  {
    hide Inv;
    ReceiptOpKeepsInvariant(db, CompleteActionOp(executionId, index, succeeded, response, failure), (executionId, index));
  }

  lemma NothingTurned(db: Db, claim: Claim)
    ensures Turned(db.receipts, db.receipts, claim, 0) && OnlyReceipts(db, db, claim.executionId)
    ensures CallsOf(db.receipts, claim, 0) == [] && Said(db.receipts, [], [])
  {
    hide StatusAt;
  }

  lemma OnlyReceiptsOnce(a: Db, b: Db, c: Db, executionId: string)
    requires OnlyReceipts(a, b, executionId) && OnlyReceipts(b, c, executionId)
    ensures OnlyReceipts(a, c, executionId)
  {
  }

  lemma TurnEnds(before: Receipts, turn: Receipts, after: Receipts, claim: Claim, index: nat, answers: seq<Answer>,
                 outcome: Outcome)
    requires Turned(before, turn, claim, index) && index < |claim.actions|
    requires var k := (claim.executionId, index);
             && k in turn && k in after && after == turn[k := after[k]]
             && IsTurn(turn[k], TargetOf(claim, index), answers, after[k], outcome)
    ensures StatusAt(turn, (claim.executionId, index)) == StatusAt(before, (claim.executionId, index))
    ensures outcome.Done? ==> Turned(before, after, claim, index + 1)
    ensures !outcome.Done? ==> StopsAt(before, after, claim, outcome, index)
    ensures forall i :: StatusAt(before, (claim.executionId, i)).ActionSucceeded? ==> StatusAt(after, (claim.executionId, i)).ActionSucceeded?
  {
    hide TargetOf;
    var k := (claim.executionId, index);
    assert forall i :: i != index ==> StatusAt(after, (claim.executionId, i)) == StatusAt(turn, (claim.executionId, i));
    assert StatusAt(after, k) == after[k].status && StatusAt(turn, k) == turn[k].status;
  }

  /** What each call was answered is on its receipt. */
  ghost predicate Said(receipts: Receipts, calls: seq<Call>, answers: seq<Answer>) {
    |answers| == |calls| && forall n :: 0 <= n < |calls| ==> IsSaid(receipts, calls[n], answers[n])
  }

  ghost predicate IsSaid(receipts: Receipts, call: Call, answer: Answer) {
    var k := (call.executionId, call.index);
    && k in receipts
    && match answer
       case Answered(response) => receipts[k].status.ActionSucceeded? && receipts[k].response == Some(response)
       case Rejected(detail) => receipts[k].status.ActionFailed? && receipts[k].lastFailure == Some(detail)
       case Unavailable => !receipts[k].status.ActionSucceeded?
  }

  lemma SaidMore(before: Receipts, turn: Receipts, after: Receipts, claim: Claim, index: nat, said: seq<Answer>,
                 answers: seq<Answer>, outcome: Outcome)
    requires Turned(before, turn, claim, index) && index < |claim.actions| && Said(turn, CallsOf(before, claim, index), said)
    requires var k := (claim.executionId, index);
             && k in turn && k in after && after == turn[k := after[k]]
             && IsTurn(turn[k], TargetOf(claim, index), answers, after[k], outcome)
    ensures CallsOf(before, claim, index + 1) == CallsOf(before, claim, index) + if IsCalled(turn, claim, index) then [CallOf(claim, index)] else []
    ensures Said(after, CallsOf(before, claim, index + 1), said + answers)
    ensures |CallsOf(before, claim, index + 1)| == |said| + |answers|
  {
    hide TargetOf, ActionKey;
    var calls := CallsOf(before, claim, index);
    forall n | 0 <= n < |calls| ensures IsSaid(after, calls[n], said[n]) {
      assert calls[n] in calls && IsSaid(turn, calls[n], said[n]);
      CallsAreOfOpenActions(before, claim, index, calls[n]);
    }
    assert StatusAt(turn, (claim.executionId, index)) == StatusAt(before, (claim.executionId, index));
  }

  lemma TurnedAll(before: Receipts, now: Receipts, claim: Claim)
    requires Turned(before, now, claim, |claim.actions|)
    ensures AllSucceeded(now, claim, |claim.actions|)
    ensures forall i :: StatusAt(before, (claim.executionId, i)).ActionSucceeded? ==> StatusAt(now, (claim.executionId, i)).ActionSucceeded?
  {
    hide StatusAt;
  }

  /** The loop ended at this action: those before it succeeded, those after it were not touched, and it failed if it
      was refused. */
  ghost predicate StopsAt(before: Receipts, after: Receipts, claim: Claim, outcome: Outcome, i: int) {
    && 0 <= i < |claim.actions|
    && (forall j :: 0 <= j < i ==> StatusAt(after, (claim.executionId, j)).ActionSucceeded?)
    && (forall j :: i < j < |claim.actions| ==> StatusAt(after, (claim.executionId, j)) == StatusAt(before, (claim.executionId, j)))
    && (outcome.Refusal? ==> IsFailure(after, (claim.executionId, i), outcome.detail))
    && (outcome.Broken? ==> StatusAt(after, (claim.executionId, i)) == StatusAt(before, (claim.executionId, i)))
  }

  ghost predicate IsFailure(receipts: Receipts, k: (string, int), detail: string) {
    k in receipts && receipts[k].status.ActionFailed? && receipts[k].lastFailure == Some(detail)
  }

  /** The status and failure of an ended execution are what its receipts say. */
  ghost predicate Reported(db: Db, c: Claim) {
    && c.executionId in db.executions
    && (db.executions[c.executionId].status.Succeeded? ==>
          db.executions[c.executionId].lastFailure.None? && AllSucceeded(db.receipts, c, |c.actions|))
    && (db.executions[c.executionId].status.Failed? ==>
          && db.executions[c.executionId].lastFailure.Some?
          && exists i :: 0 <= i < |c.actions| && IsFailure(db.receipts, (c.executionId, i), db.executions[c.executionId].lastFailure.value))
  }

  ghost predicate ReportedUpTo(db: Db, claims: seq<Claim>, n: nat) {
    forall i :: 0 <= i < n <= |claims| ==> Reported(db, claims[i])
  }

  /** What happens to one execution leaves the reports of the others as they are. */
  lemma OthersStayReported(a: Db, b: Db, claims: seq<Claim>, position: nat)
    requires position < |claims| && ReportedUpTo(a, claims, position)
    requires forall i, j :: 0 <= i < j < |claims| ==> claims[i].executionId != claims[j].executionId
    requires forall e :: e in a.executions && e != claims[position].executionId ==> e in b.executions && b.executions[e] == a.executions[e]
    requires forall k: (string, int) :: k.0 != claims[position].executionId ==> SameAt(b.receipts, a.receipts, k)
    ensures ReportedUpTo(b, claims, position)
  {
    forall i | 0 <= i < position ensures Reported(b, claims[i]) {
      assert Reported(a, claims[i]) && claims[i].executionId != claims[position].executionId;
      assert forall j :: SameAt(b.receipts, a.receipts, (claims[i].executionId, j));
    }
  }

  lemma ActionsStayReported(a: Db, b: Db, claims: seq<Claim>, position: nat)
    requires position < |claims| && ReportedUpTo(a, claims, position) && OnlyReceipts(a, b, claims[position].executionId)
    requires forall i, j :: 0 <= i < j < |claims| ==> claims[i].executionId != claims[j].executionId
    ensures ReportedUpTo(b, claims, position) && b.executions == a.executions && b.dispatches == a.dispatches
  {
    hide Reported;
    OthersStayReported(a, b, claims, position);
  }

  /** Completing the claim just executed reports what the loop over its actions found. */
  lemma CompletionReports(db: Db, claims: seq<Claim>, position: nat, before: Receipts, outcome: Outcome,
                          failure: Option<string>, now: Time)
    requires position < |claims| && Claims(db, claims) && ReportedUpTo(db, claims, position) && !outcome.Broken?
    requires outcome.Done? ==> AllSucceeded(db.receipts, claims[position], |claims[position].actions|)
    requires !outcome.Done? ==> exists i :: StopsAt(before, db.receipts, claims[position], outcome, i)
    requires failure == if outcome.Done? then None else Some(outcome.detail)
    requires Inv(db)
    ensures var tx := CompleteExecution(db, claims[position], outcome.Done?, failure, now);
            tx.reply.Ok? ==> ReportedUpTo(tx.db, claims, position + 1)
  {
    hide Inv, CompleteExecution, Genuine, Later, StatusAt, AllSucceeded;
    var claim := claims[position];
    var tx := CompleteExecution(db, claim, outcome.Done?, failure, now);
    assert Genuine(db, claim);
    EndingKeepsOthers(db, CompleteOp(claim, outcome.Done?, failure, now));
    CompleteFrame(db, claim, outcome.Done?, failure, now);
    OthersStayReported(db, tx.db, claims, position);
    CompletedStatus(db, claim, outcome.Done?, failure, now);
    if !outcome.Done? {
      var i :| StopsAt(before, db.receipts, claim, outcome, i);
      assert IsFailure(tx.db.receipts, (claim.executionId, i), outcome.detail);
    }
  }

  // ----- the calls of a batch -----

  /** How many turns were taken for each claim that was run. */
  ghost predicate Stops(claims: seq<Claim>, stops: seq<nat>) {
    |stops| <= |claims| && forall i :: 0 <= i < |stops| ==> stops[i] <= |claims[i].actions|
  }

  /** The calls of those turns, claim by claim. */
  ghost function BatchCalls(before: Receipts, claims: seq<Claim>, stops: seq<nat>): seq<Call>
    requires Stops(claims, stops)
  {
    if stops == [] then []
    else BatchCalls(before, claims, stops[..|stops| - 1]) + CallsOf(before, claims[|stops| - 1], stops[|stops| - 1])
  }

  /** Of the first claims, each that succeeded took all its turns. */
  ghost predicate RanThrough(executions: Executions, claims: seq<Claim>, stops: seq<nat>, n: nat) {
    && n <= |stops| && n <= |claims|
    && forall i :: 0 <= i < n && claims[i].executionId in executions && executions[claims[i].executionId].status.Succeeded? ==>
         stops[i] == |claims[i].actions|
  }

  /** Receipts of claims from one position on are as they were. */
  ghost predicate Untouched(before: Receipts, now: Receipts, claims: seq<Claim>, from: nat) {
    forall i, x :: from <= i < |claims| ==> SameAt(before, now, (claims[i].executionId, x))
  }

  lemma BatchBegins(db: Db, claims: seq<Claim>)
    ensures Untouched(db.receipts, db.receipts, claims, 0) && RanThrough(db.executions, claims, [], 0)
    ensures Stops(claims, []) && BatchCalls(db.receipts, claims, []) == []
    ensures TerminalUpTo(db.executions, claims, 0) && Count(db.executions, claims, 0, Succeeded) == Count(db.executions, claims, 0, Failed) == 0
    ensures ReportedUpTo(db, claims, 0)
  {
  }

  lemma {:induction false} SameCalls(a: Receipts, b: Receipts, claim: Claim, n: nat)
    requires n <= |claim.actions| && forall x :: SameAt(a, b, (claim.executionId, x))
    ensures CallsOf(a, claim, n) == CallsOf(b, claim, n)
  {
    hide CallOf, TargetOf;
    if n > 0 {
      SameCalls(a, b, claim, n - 1);
      assert SameAt(a, b, (claim.executionId, n - 1));
    }
  }

  lemma BatchTurn(begin: Db, start: Db, executed: Db, claims: seq<Claim>, stops: seq<nat>, stopped: nat)
    requires |stops| < |claims| && Stops(claims, stops) && stopped <= |claims[|stops|].actions| && Claims(start, claims)
    requires Untouched(begin.receipts, start.receipts, claims, |stops|) && RanThrough(start.executions, claims, stops, |stops|)
    requires OnlyReceipts(start, executed, claims[|stops|].executionId)
    ensures Stops(claims, stops + [stopped])
    ensures BatchCalls(begin.receipts, claims, stops + [stopped])
            == BatchCalls(begin.receipts, claims, stops) + CallsOf(start.receipts, claims[|stops|], stopped)
    ensures Untouched(begin.receipts, executed.receipts, claims, |stops| + 1)
    ensures RanThrough(executed.executions, claims, stops + [stopped], |stops|)
  {
    hide CallsOf, Genuine;
    var position := |stops|;
    assert forall x :: SameAt(begin.receipts, start.receipts, (claims[position].executionId, x));
    SameCalls(begin.receipts, start.receipts, claims[position], stopped);
    assert (stops + [stopped])[..position] == stops;
    forall i, x | position + 1 <= i < |claims| ensures SameAt(begin.receipts, executed.receipts, (claims[i].executionId, x)) {
      assert SameAt(begin.receipts, start.receipts, (claims[i].executionId, x)) && claims[position].executionId != claims[i].executionId;
    }
  }

  lemma ReleasesWithReason(db: Db, claim: Claim, now: Time)
    requires Genuine(db, claim)
    ensures var tx := ReleaseExecution(db, claim, "dependency_runtime_failure", now);
            tx.reply.Ok? ==> claim.executionId in tx.db.executions && tx.db.executions[claim.executionId].lastFailure == Some("dependency_runtime_failure")
  {
    hide HoldsLease;
  }

  lemma OthersStayRun(a: Executions, b: Executions, claims: seq<Claim>, stops: seq<nat>, position: nat)
    requires position < |claims| && position <= |stops| && OnlyExecution(a, b, claims[position].executionId) && RanThrough(a, claims, stops, position)
    requires forall i, j :: 0 <= i < j < |claims| ==> claims[i].executionId != claims[j].executionId
    ensures RanThrough(b, claims, stops, position)
  {
  }

  lemma ReleaseKeepsRanThrough(db: Db, claims: seq<Claim>, stops: seq<nat>, position: nat, now: Time)
    requires position < |claims| && position < |stops| && Claims(db, claims) && RanThrough(db.executions, claims, stops, position)
    requires Inv(db)
    ensures RanThrough(ReleaseExecution(db, claims[position], "dependency_runtime_failure", now).db.executions, claims, stops, position)
  {
    hide Inv, ReleaseExecution, Genuine, Later, RanThrough;
    assert Genuine(db, claims[position]);
    var op := ReleaseOp(claims[position], "dependency_runtime_failure", now);
    EndingKeepsOthers(db, op);
    OthersStayRun(db.executions, Apply(db, op).executions, claims, stops, position);
  }

  lemma CompletionRanThrough(begin: Db, db: Db, claims: seq<Claim>, stops: seq<nat>, position: nat, done: bool,
                             failure: Option<string>, now: Time)
    requires position < |claims| && |stops| == position + 1 && Claims(db, claims) && RanThrough(db.executions, claims, stops, position)
    requires Untouched(begin.receipts, db.receipts, claims, position + 1)
    requires done ==> stops[position] == |claims[position].actions|
    requires Inv(db)
    ensures var tx := CompleteExecution(db, claims[position], done, failure, now);
            && RanThrough(tx.db.executions, claims, stops, if tx.reply.Ok? then position + 1 else position)
            && Untouched(begin.receipts, tx.db.receipts, claims, position + 1)
  {
    hide Inv, CompleteExecution, Genuine, Later, Untouched;
    var claim := claims[position];
    assert Genuine(db, claim);
    var op := CompleteOp(claim, done, failure, now);
    EndingKeepsOthers(db, op);
    CompleteFrame(db, claim, done, failure, now);
    CompletedStatus(db, claim, done, failure, now);
    OthersStayRun(db.executions, Apply(db, op).executions, claims, stops, position);
  }

  lemma NothingRan(db: Db)
    ensures Stops([], []) && BatchCalls(db.receipts, [], []) == [] && forall executions :: RanThrough(executions, [], [], 0)
  {
  }

  /** The claims of a claiming transaction: one for each picked row, as the rows were before. */
  ghost function ClaimsHanded(db: Db, picked: seq<string>, worker: string): seq<Claim> {
    if forall e :: e in picked ==> e in db.executions && db.executions[e].triggerId in db.triggers then ClaimsOf(db, picked, worker) else []
  }

  lemma ClaimsFlushed(start: Db, flushed: Db, organizationId: string, worker: string, picked: seq<string>, limit: int,
                      leaseSeconds: int, now: Time)
    requires OnlyDispatches(start, flushed) && PickedRows(start, organizationId, picked, limit, now) && PickedRows(flushed, organizationId, picked, limit, now)
    ensures var reply := ClaimExecutions(flushed, organizationId, worker, picked, limit, leaseSeconds, now).reply;
            reply.Ok? ==> reply.value == ClaimsHanded(start, picked, worker)
  {
    hide Distinct, ClaimAll;
  }

  lemma FlushKeepsReports(a: Db, b: Db, claims: seq<Claim>, n: nat)
    requires ReportedUpTo(a, claims, n) && OnlyDispatches(a, b)
    ensures ReportedUpTo(b, claims, n)
  {
    forall i | 0 <= i < n <= |claims| ensures Reported(b, claims[i]) {
      assert Reported(a, claims[i]);
    }
  }

  lemma ReleaseKeepsReports(db: Db, claims: seq<Claim>, position: nat, reason: string, now: Time)
    requires position < |claims| && Claims(db, claims) && ReportedUpTo(db, claims, position)
    requires Inv(db)
    ensures ReportedUpTo(ReleaseExecution(db, claims[position], reason, now).db, claims, position)
  {
    hide Inv, ReleaseExecution, Genuine, Later, StatusAt, Reported;
    assert Genuine(db, claims[position]);
    EndingKeepsOthers(db, ReleaseOp(claims[position], reason, now));
    ReleaseFrame(db, claims[position], reason, now);
    OthersStayReported(db, ReleaseExecution(db, claims[position], reason, now).db, claims, position);
  }

  /** The next slot of the rule cannot be represented. */
  predicate OutOfRange(rules: RuleTable, ruleId: string) {
    && ruleId in rules && rules[ruleId].nextFireAt.Some? && rules[ruleId].trigger.intervalSeconds.Some?
    && CheckedAddSeconds(rules[ruleId].nextFireAt.value, rules[ruleId].trigger.intervalSeconds.value).None?
  }

  /** The request is refused, or an attempt counter is exhausted. */
  ghost predicate NotClaimed(db: Db, organizationId: string, limit: int, most: int, picked: seq<string>) {
    !ValidId(organizationId) || !(1 <= limit <= most) || exists e :: e in picked && e in db.executions && db.executions[e].attempts == I32_MAX
  }

  lemma HasReceipt(db: Db, claim: Claim, index: nat)
    requires Genuine(db, claim) && index < |claim.actions|
    requires Inv(db)
    ensures (claim.executionId, index) in db.receipts
  {
    hide Inv, ReceiptFor;
    InvariantReceipts(db);
  }

  /** Storage refuses to complete a held execution only if the next slot of its rule cannot be represented. */
  lemma CompletionRefused(db: Db, claim: Claim, lease: Lease, succeeded: bool, failure: Option<string>, now: Time)
    requires Genuine(db, claim) && Held(db.executions, claim, lease) && CompleteExecution(db, claim, succeeded, failure, now).reply.Err?
    requires Inv(db)
    ensures now > lease.until || OutOfRange(db.rules, claim.ruleId)
  {
    hide References, DispatchKeys, TriggersOk, IntakeOk, Leases, ReceiptsOk, CommandsOk, NamesOk, SnapshotsValid,
         ReplacePendingSchedule,
         PayloadJson, Get, ValidText, ValidConditions, ValidActionsForTrigger;
    if claim.ruleId in db.rules {
      assert ValidRule(db.rules[claim.ruleId].name, db.rules[claim.ruleId].trigger, db.rules[claim.ruleId].conditions, db.rules[claim.ruleId].actions);
    }
  }

  /** Claims from one position on are of running executions that anyone may claim again once the lease is over. */
  ghost predicate ClaimableFrom(executions: Executions, claims: seq<Claim>, from: nat, organizationId: string, until: Time) {
    forall i, now :: from <= i < |claims| && now > until ==>
      claims[i].executionId in executions && executions[claims[i].executionId].status.Running? && Claimable(executions[claims[i].executionId], organizationId, now)
  }

  lemma NoClaims(executions: Executions, organizationId: string, until: Time)
    ensures TerminalUpTo(executions, [], 0) && ClaimableFrom(executions, [], 0, organizationId, until)
    ensures HeldFrom(executions, [], 0, Lease(organizationId, until))
  {
  }

  lemma HeldIsClaimable(executions: Executions, claims: seq<Claim>, from: nat, lease: Lease)
    requires from <= |claims| && (from < |claims| ==> HeldFrom(executions, claims, from, lease))
    ensures HeldFrom(executions, claims, from, lease) && ClaimableFrom(executions, claims, from, lease.organizationId, lease.until)
  {
    forall i, now | from <= i < |claims| && now > lease.until
      ensures claims[i].executionId in executions && executions[claims[i].executionId].status.Running?
      ensures Claimable(executions[claims[i].executionId], lease.organizationId, now)
    {
      assert Held(executions, claims[i], lease);
    }
  }

  lemma StillPicked(a: Db, b: Db, organizationId: string, picked: seq<string>, limit: int, now: Time)
    requires OnlyDispatches(a, b) && PickedRows(a, organizationId, picked, limit, now)
    ensures PickedRows(b, organizationId, picked, limit, now)
  {
    hide Distinct;
  }

  /** A claiming transaction leaves every claim it hands out held, and genuine. */
  lemma ClaimsAreHeld(db: Db, organizationId: string, worker: string, picked: seq<string>, limit: int, leaseSeconds: int,
                      now: Time)
    requires PickedRows(db, organizationId, picked, limit, now)
    requires Inv(db)
    ensures var tx := ClaimExecutions(db, organizationId, worker, picked, limit, leaseSeconds, now);
            tx.reply.Ok? ==>
              && |tx.reply.value| == |picked| <= limit && Claims(tx.db, tx.reply.value)
              && HeldFrom(tx.db.executions, tx.reply.value, 0, Lease(organizationId, now + leaseSeconds * SECOND))
              && tx.db.dispatches == db.dispatches && tx.db.receipts == db.receipts
    ensures var tx := ClaimExecutions(db, organizationId, worker, picked, limit, leaseSeconds, now);
            tx.reply.Err? ==> exists e :: e in picked && e in db.executions && db.executions[e].attempts == I32_MAX
  {
    hide Inv, ClaimOne, Distinct, ClaimAll, Genuine, Held;
    var tx := ClaimExecutions(db, organizationId, worker, picked, limit, leaseSeconds, now);
    var leaseUntil := now + leaseSeconds * SECOND;
    ClaimAllFrame(db, picked, |picked|, worker, leaseUntil);
    if tx.reply.Ok? {
      forall i | 0 <= i < |picked| ensures Genuine(tx.db, tx.reply.value[i]) && Held(tx.db.executions, tx.reply.value[i], Lease(organizationId, leaseUntil)) {
        assert picked[i] in picked;
        NoNegativeAttempts(db, picked[i]);
        ClaimedEach(db, picked, |picked|, worker, leaseUntil, i);
        ClaimIsHeld(db, tx.db, organizationId, picked[i], worker, leaseUntil);
      }
      forall i, j | 0 <= i < j < |picked| ensures tx.reply.value[i].executionId != tx.reply.value[j].executionId {
        DistinctRows(picked, i, j);
      }
    }
  }

  lemma DistinctRows(picked: seq<string>, i: nat, j: nat)
    requires Distinct(picked) && i < j < |picked|
    ensures picked[i] != picked[j]
  {
  }

  lemma ClaimIsHeld(db: Db, after: Db, organizationId: string, id: string, worker: string, leaseUntil: Time)
    requires id in db.executions && db.executions[id].triggerId in db.triggers && after.triggers == db.triggers
    requires db.executions[id].organizationId == organizationId && db.executions[id].attempts >= 0
    requires IsClaimed(after, db.executions[id], id, worker, leaseUntil)
    ensures Genuine(after, ClaimOf(db, id, worker)) && Held(after.executions, ClaimOf(db, id, worker), Lease(organizationId, leaseUntil))
  {
  }

  lemma NoSlots()
    ensures Slots([]) == {}
  {
  }

  lemma StillPending(ds: Dispatches, organizationId: string, rows: seq<ScheduleDispatch>, limit: nat,
                     collation: (string, string) -> bool, i: nat)
    requires PendingRows(ds, organizationId, rows, limit, collation) && i < |rows|
    ensures SlotKey(rows[i]) in PendingSet(ds, organizationId) && SlotKey(rows[i]) !in Slots(rows[..i])
    ensures Slots(rows[..i + 1]) == Slots(rows[..i]) + {SlotKey(rows[i])} && rows[..i + 1] == rows[..i] + [rows[i]]
  {
    hide JobOf;
    assert rows[i] in rows;
    assert rows[..i + 1] == rows[..i] + [rows[i]];
    forall d | d in rows[..i] ensures SlotKey(d) != SlotKey(rows[i]) {
      var j :| 0 <= j < i && rows[..i][j] == d;
      assert rows[j] in rows;
      assert IsPending(ds, organizationId, rows[j]) && IsPending(ds, organizationId, rows[i]);
    }
  }

  /** The first rows are enqueued now, and no other dispatch of the organization changed its state. */
  ghost predicate Flushed(before: Dispatches, now: Dispatches, organizationId: string, rows: seq<ScheduleDispatch>, n: nat) {
    && n <= |rows|
    && EnqueuedSet(now) == EnqueuedSet(before) + Slots(rows[..n])
    && PendingSet(now, organizationId) == PendingSet(before, organizationId) - Slots(rows[..n])
    && |EnqueuedSet(now)| == |EnqueuedSet(before)| + n
  }

  lemma NothingFlushed(ds: Dispatches, organizationId: string, rows: seq<ScheduleDispatch>)
    ensures Flushed(ds, ds, organizationId, rows, 0)
  {
    hide EnqueuedSet, PendingSet;
    NoSlots();
    assert rows[..0] == [];
  }

  lemma FlushedSets(before: Dispatches, now: Dispatches, organizationId: string, rows: seq<ScheduleDispatch>, n: nat)
    requires Flushed(before, now, organizationId, rows, n)
    ensures n <= |rows| && EnqueuedSet(now) == EnqueuedSet(before) + Slots(rows[..n]) && |EnqueuedSet(now)| == |EnqueuedSet(before)| + n
    ensures PendingSet(now, organizationId) == PendingSet(before, organizationId) - Slots(rows[..n])
  {
    hide EnqueuedSet, PendingSet, Slots;
  }

  lemma PendingIsThere(ds: Dispatches, organizationId: string, slot: (string, Time))
    requires slot in PendingSet(ds, organizationId)
    ensures slot in ds
  {
  }

  lemma PendingStill(before: Dispatches, now: Dispatches, organizationId: string, rows: seq<ScheduleDispatch>, limit: nat,
                     collation: (string, string) -> bool, i: nat)
    requires Flushed(before, now, organizationId, rows, i) && PendingRows(before, organizationId, rows, limit, collation) && i < |rows|
    ensures SlotKey(rows[i]) in PendingSet(now, organizationId)
  {
    hide EnqueuedSet, PendingSet, Slots, SlotKey, PendingRows;
    StillPending(before, organizationId, rows, limit, collation, i);
  }

  lemma FlushEnds(before: Dispatches, turn: Dispatches, after: Dispatches, organizationId: string, rows: seq<ScheduleDispatch>,
                  limit: nat, collation: (string, string) -> bool, i: nat, recorded: bool)
    requires Flushed(before, turn, organizationId, rows, i) && PendingRows(before, organizationId, rows, limit, collation) && i < |rows|
    requires recorded ==>
               && EnqueuedSet(after) == EnqueuedSet(turn) + {SlotKey(rows[i])} && SlotKey(rows[i]) !in EnqueuedSet(turn)
               && PendingSet(after, organizationId) == PendingSet(turn, organizationId) - {SlotKey(rows[i])}
    requires !recorded ==> EnqueuedSet(after) == EnqueuedSet(turn) && PendingSet(after, organizationId) == PendingSet(turn, organizationId)
    ensures Flushed(before, after, organizationId, rows, if recorded then i + 1 else i) && rows[..i + 1] == rows[..i] + [rows[i]]
  {
    hide EnqueuedSet, PendingSet, Slots, SlotKey, PendingRows;
    StillPending(before, organizationId, rows, limit, collation, i);
  }

  function EnqueuedRow(d: Dispatch, jobId: string): Dispatch {
    d.(state := Enqueued, attempts := d.attempts + 1, jobId := Some(jobId), lastFailure := None)
  }

  function NotedRow(d: Dispatch, reason: string): Dispatch {
    d.(attempts := d.attempts + 1, lastFailure := Some(reason))
  }

  /** The reason noted for an answer that is none. */
  function ReasonOf(answer: Answer): string {
    if answer.Unavailable? then "jobs_runtime_failure" else "jobs_contract_rejected"
  }

  /** The row was not accepted, for the reason of this answer. */
  ghost predicate IsNoted(before: Dispatches, now: Dispatches, slot: (string, Time), answer: Answer) {
    slot in before && slot in now && now[slot] == NotedRow(before[slot], ReasonOf(answer))
  }

  /** The first rows carry the ids of their jobs. */
  ghost predicate Marked(before: Dispatches, now: Dispatches, rows: seq<ScheduleDispatch>, ids: seq<string>, n: nat) {
    && n <= |rows| && n <= |ids|
    && forall i :: 0 <= i < n ==>
         SlotKey(rows[i]) in before && SlotKey(rows[i]) in now && now[SlotKey(rows[i])] == EnqueuedRow(before[SlotKey(rows[i])], ids[i])
  }

  ghost predicate OthersSame(before: Dispatches, now: Dispatches, rows: seq<ScheduleDispatch>, n: nat) {
    && now.Keys == before.Keys
    && forall k :: k in before && (forall i :: 0 <= i < n <= |rows| ==> SlotKey(rows[i]) != k) ==> now[k] == before[k]
  }

  lemma NothingMarked(ds: Dispatches, rows: seq<ScheduleDispatch>)
    ensures Marked(ds, ds, rows, [], 0) && OthersSame(ds, ds, rows, 0)
  {
  }

  lemma SlotsDiffer(ds: Dispatches, organizationId: string, rows: seq<ScheduleDispatch>, limit: nat,
                    collation: (string, string) -> bool, i: nat, j: nat)
    requires PendingRows(ds, organizationId, rows, limit, collation) && i < j < |rows|
    ensures SlotKey(rows[i]) != SlotKey(rows[j]) && SlotKey(rows[j]) in ds
  {
    hide Precedes, JobOf;
    assert rows[i] in rows && rows[j] in rows;
    assert IsPending(ds, organizationId, rows[i]) && IsPending(ds, organizationId, rows[j]);
  }

  lemma MarksOne(before: Dispatches, turn: Dispatches, after: Dispatches, organizationId: string, rows: seq<ScheduleDispatch>,
                 limit: nat, collation: (string, string) -> bool, ids: seq<string>, ids': seq<string>, i: nat, recorded: bool, answer: Answer)
    requires PendingRows(before, organizationId, rows, limit, collation) && i < |rows| && |ids| == i
    requires Marked(before, turn, rows, ids, i) && OthersSame(before, turn, rows, i) && SlotKey(rows[i]) in turn
    requires recorded ==> |ids'| == i + 1 && ids'[..i] == ids && after == turn[SlotKey(rows[i]) := EnqueuedRow(turn[SlotKey(rows[i])], ids'[i])]
    requires !recorded ==> ids' == ids && after == turn[SlotKey(rows[i]) := NotedRow(turn[SlotKey(rows[i])], ReasonOf(answer))]
    ensures Marked(before, after, rows, ids', if recorded then i + 1 else i)
    ensures OthersSame(before, after, rows, i + 1) && (!recorded ==> IsNoted(before, after, SlotKey(rows[i]), answer))
  {
    hide PendingRows, SlotKey, EnqueuedRow, NotedRow, ReasonOf;
    forall j | 0 <= j < i ensures SlotKey(rows[j]) != SlotKey(rows[i]) {
      SlotsDiffer(before, organizationId, rows, limit, collation, j, i);
    }
    if i > 0 {
      SlotsDiffer(before, organizationId, rows, limit, collation, 0, i);
    } else {
      FirstInDispatches(before, organizationId, rows, limit, collation);
    }
    assert turn[SlotKey(rows[i])] == before[SlotKey(rows[i])];
    forall j | 0 <= j < i ensures ids'[j] == ids[j] {
      assert ids == ids'[..i];
    }
  }

  lemma FirstInDispatches(ds: Dispatches, organizationId: string, rows: seq<ScheduleDispatch>, limit: nat,
                          collation: (string, string) -> bool)
    requires PendingRows(ds, organizationId, rows, limit, collation) && |rows| > 0
    ensures SlotKey(rows[0]) in ds
  {
    hide Precedes, JobOf;
    assert rows[0] in rows && IsPending(ds, organizationId, rows[0]);
  }

  lemma EnqueuesOne(ds: Dispatches, organizationId: string, slot: (string, Time), jobId: string)
    requires slot in PendingSet(ds, organizationId)
    ensures var after := MarkEnqueued(ds, slot, jobId).0;
            && EnqueuedSet(after) == EnqueuedSet(ds) + {slot} && slot !in EnqueuedSet(ds)
            && PendingSet(after, organizationId) == PendingSet(ds, organizationId) - {slot}
  {
  }

  lemma NotesFailure(ds: Dispatches, organizationId: string, slot: (string, Time), failure: string)
    ensures EnqueuedSet(RecordDispatchFailure(ds, slot, failure)) == EnqueuedSet(ds)
    ensures PendingSet(RecordDispatchFailure(ds, slot, failure), organizationId) == PendingSet(ds, organizationId)
  {
  }

  lemma GenuineAfterReceipts(a: Db, b: Db, claim: Claim)
    requires Genuine(a, claim) && OnlyReceipts(a, b, claim.executionId)
    ensures Genuine(b, claim)
  {
  }

  lemma ReceiptsKeepClaims(a: Db, b: Db, claims: seq<Claim>, executionId: string)
    requires Claims(a, claims) && OnlyReceipts(a, b, executionId)
    ensures Claims(b, claims)
  {
    forall i | 0 <= i < |claims| ensures Genuine(b, claims[i]) {
      assert Genuine(a, claims[i]);
    }
  }

  lemma LaterClaims(a: Db, b: Db, claims: seq<Claim>)
    requires Claims(a, claims) && Later(a, b)
    ensures Claims(b, claims)
  {
    hide Later, Genuine;
    forall i | 0 <= i < |claims| ensures Genuine(b, claims[i]) {
      GenuineStays(a, b, claims[i]);
    }
  }

  /** One execution was ended: the others are as they were. */
  ghost predicate OnlyExecution(a: Executions, b: Executions, id: string) {
    id in a && b.Keys == a.Keys && forall e :: e in a && e != id ==> b[e] == a[e]
  }

  lemma OthersStayHeld(a: Executions, b: Executions, claims: seq<Claim>, position: nat, lease: Lease)
    requires position < |claims| && OnlyExecution(a, b, claims[position].executionId) && HeldFrom(a, claims, position, lease)
    requires forall i, j :: 0 <= i < j < |claims| ==> claims[i].executionId != claims[j].executionId
    ensures HeldFrom(b, claims, position + 1, lease)
  {
    forall i | position + 1 <= i < |claims| ensures Held(b, claims[i], lease) {
      assert Held(a, claims[i], lease);
    }
  }

  lemma OthersStayTerminal(a: Executions, b: Executions, claims: seq<Claim>, position: nat)
    requires position < |claims| && OnlyExecution(a, b, claims[position].executionId) && TerminalUpTo(a, claims, position)
    requires forall i, j :: 0 <= i < j < |claims| ==> claims[i].executionId != claims[j].executionId
    ensures TerminalUpTo(b, claims, position)
  {
  }

  lemma {:induction false} OthersStayCounted(a: Executions, b: Executions, claims: seq<Claim>, position: nat, n: nat,
                                             status: ExecutionStatus)
    requires n <= position < |claims| && OnlyExecution(a, b, claims[position].executionId)
    requires forall i, j :: 0 <= i < j < |claims| ==> claims[i].executionId != claims[j].executionId
    ensures Count(b, claims, n, status) == Count(a, claims, n, status)
  {
    if n > 0 {
      OthersStayCounted(a, b, claims, position, n - 1, status);
      assert claims[n - 1].executionId != claims[position].executionId;
    }
  }

  lemma EndingMoves(db: Db, op: Op, e: string)
    requires (op.ReleaseOp? || op.CompleteOp?) && Enabled(db, op) && e in db.executions
    requires Inv(db)
    ensures e in Apply(db, op).executions
    ensures e != op.claim.executionId ==> Apply(db, op).executions[e] == db.executions[e]
  {
    hide Inv, Apply, Enabled, HoldsLease;
    StepMovesExecution(db, op, e);
  }

  lemma EndingKeepsOthers(db: Db, op: Op)
    requires (op.ReleaseOp? || op.CompleteOp?) && Enabled(db, op)
    requires Inv(db)
    ensures OnlyExecution(db.executions, Apply(db, op).executions, op.claim.executionId)
    ensures Later(db, Apply(db, op))
    ensures EnqueuedSet(Apply(db, op).dispatches) == EnqueuedSet(db.dispatches)
  {
    hide Inv, Apply, ExecutionMoves, Later;
    StepIsLater(db, op);
    forall e ensures e in db.executions <==> e in Apply(db, op).executions
             ensures e in db.executions && e != op.claim.executionId ==> Apply(db, op).executions[e] == db.executions[e]
    {
      if e in db.executions {
        EndingMoves(db, op, e);
      }
      EndingCreatesNothing(db, op, e);
    }
    forall k ensures k in EnqueuedSet(Apply(db, op).dispatches) <==> k in EnqueuedSet(db.dispatches) {
      StepMoves(db, op, k);
    }
  }

  lemma EndingCreatesNothing(db: Db, op: Op, e: string)
    requires (op.ReleaseOp? || op.CompleteOp?) && Enabled(db, op)
    requires Inv(db)
    ensures e in Apply(db, op).executions ==> e in db.executions
  {
    hide Inv, Apply;
    OnlyIntakeCreates(db, op);
  }

  lemma ReleaseFrees(db: Db, claims: seq<Claim>, position: nat, lease: Lease, now: Time)
    requires position < |claims| && Claims(db, claims) && HeldFrom(db.executions, claims, position, lease)
    requires TerminalUpTo(db.executions, claims, position)
    requires Inv(db)
    ensures var tx := ReleaseExecution(db, claims[position], "dependency_runtime_failure", now);
            && EnqueuedSet(tx.db.dispatches) == EnqueuedSet(db.dispatches)
            && TerminalUpTo(tx.db.executions, claims, position)
            && Count(tx.db.executions, claims, position, Succeeded) == Count(db.executions, claims, position, Succeeded)
            && Count(tx.db.executions, claims, position, Failed) == Count(db.executions, claims, position, Failed)
            && (tx.reply.Ok? ==> ReleasedForRetry(tx.db, claims[position]) && HeldFrom(tx.db.executions, claims, position + 1, lease))
            && (tx.reply.Err? ==> HeldFrom(tx.db.executions, claims, position, lease))
  {
    hide Inv, Later, Held, TerminalUpTo, Count, Genuine, EnqueuedSet;
    var claim := claims[position];
    var op := ReleaseOp(claim, "dependency_runtime_failure", now);
    assert Genuine(db, claim);
    EndingKeepsOthers(db, op);
    OthersStayTerminal(db.executions, Apply(db, op).executions, claims, position);
    OthersStayCounted(db.executions, Apply(db, op).executions, claims, position, position, Succeeded);
    OthersStayCounted(db.executions, Apply(db, op).executions, claims, position, position, Failed);
    OthersStayHeld(db.executions, Apply(db, op).executions, claims, position, lease);
    ReleasedAttempt(db, claim, now);
  }

  lemma ReleasedAttempt(db: Db, claim: Claim, now: Time)
    requires Genuine(db, claim)
    requires Inv(db)
    ensures var tx := ReleaseExecution(db, claim, "dependency_runtime_failure", now);
            if tx.reply.Ok? then ReleasedForRetry(tx.db, claim) else tx.db == db
  {
    hide References, Ledger, DispatchKeys, TriggersOk, IntakeOk, ReceiptsOk, CommandsOk, NamesOk, RulesValid, SnapshotsValid;
    assert LeaseOk(claim.executionId, db.executions[claim.executionId], db.attempts);
  }

  lemma CompletionEnds(db: Db, claims: seq<Claim>, position: nat, lease: Lease, succeeded: bool, failure: Option<string>,
                       now: Time)
    requires position < |claims| && Claims(db, claims) && HeldFrom(db.executions, claims, position, lease)
    requires TerminalUpTo(db.executions, claims, position)
    requires Inv(db)
    ensures var tx := CompleteExecution(db, claims[position], succeeded, failure, now);
            && EnqueuedSet(tx.db.dispatches) == EnqueuedSet(db.dispatches)
            && Claims(tx.db, claims)
            && (tx.reply.Err? ==> tx.db == db)
            && (tx.reply.Ok? ==>
                  && TerminalUpTo(tx.db.executions, claims, position + 1)
                  && HeldFrom(tx.db.executions, claims, position + 1, lease)
                  && Count(tx.db.executions, claims, position + 1, Succeeded)
                     == Count(db.executions, claims, position, Succeeded) + (if succeeded then 1 else 0)
                  && Count(tx.db.executions, claims, position + 1, Failed)
                     == Count(db.executions, claims, position, Failed) + (if succeeded then 0 else 1))
  {
    hide Inv, Later, Held, Genuine, EnqueuedSet, CompleteExecution, TerminalUpTo, Count;
    var claim := claims[position];
    var op := CompleteOp(claim, succeeded, failure, now);
    assert Genuine(db, claim);
    EndingKeepsOthers(db, op);
    LaterClaims(db, Apply(db, op), claims);
    CompletedStatus(db, claim, succeeded, failure, now);
    if CompleteExecution(db, claim, succeeded, failure, now).reply.Ok? {
      CountsOneMore(db.executions, Apply(db, op).executions, claims, position, succeeded);
      OthersStayHeld(db.executions, Apply(db, op).executions, claims, position, lease);
    }
  }

  lemma CountsOneMore(a: Executions, b: Executions, claims: seq<Claim>, position: nat, succeeded: bool)
    requires position < |claims| && OnlyExecution(a, b, claims[position].executionId) && TerminalUpTo(a, claims, position)
    requires b[claims[position].executionId].status == if succeeded then Succeeded else Failed
    requires forall i, j :: 0 <= i < j < |claims| ==> claims[i].executionId != claims[j].executionId
    ensures TerminalUpTo(b, claims, position + 1)
    ensures Count(b, claims, position + 1, Succeeded) == Count(a, claims, position, Succeeded) + (if succeeded then 1 else 0)
    ensures Count(b, claims, position + 1, Failed) == Count(a, claims, position, Failed) + (if succeeded then 0 else 1)
  {
    OthersStayTerminal(a, b, claims, position);
    OthersStayCounted(a, b, claims, position, position, Succeeded);
    OthersStayCounted(a, b, claims, position, position, Failed);
  }
}
