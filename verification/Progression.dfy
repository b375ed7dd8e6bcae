/** A recurring schedule that nobody edits: which slots it visits, and that it is never stuck between them. */
module Progression {
  import opened Results
  import opened Text
  import opened Schedule
  import opened Rules
  import opened Payloads
  import opened Targets
  import opened Keys
  import opened Tables
  import opened Transactions
  import opened Invariants
  import opened Preservation
  import opened Runs
  import opened Frames
  import opened Effects
  import opened History
  import opened Intakes
  import opened CommandLaws
  import opened RuleSteps
  import opened Stalling

  /** A slot from `t0` on that advancing by one interval at a time comes to: no instant up to it is out of range. */
  ghost predicate OnGrid(t0: Time, interval: int, t: Time) {
    exists j :: 0 <= j && t == Slot(t0, interval, j) && InRange(t0, interval, j)
  }

  ghost predicate InRange(t0: Time, interval: int, j: int) {
    forall i :: 1 <= i <= j ==> Representable(Slot(t0, interval, i))
  }

  ghost predicate InProgression(t0: Time, interval: int, k: int, t: Time) {
    exists j :: 0 <= j <= k && t == Slot(t0, interval, j)
  }

  ghost predicate IsRecurrence(db: Db, e: string, r: string, t0: Time, interval: int) {
    e in ExecutionsOf(db.executions, r) && IsTimerExecution(db, e) && OnGrid(t0, interval, SlotOf(db, e))
  }

  /** The executions of a rule for slots from `t0` on. */
  ghost function Recurrences(db: Db, r: string, t0: Time, interval: int): set<string> {
    set e | e in db.executions && IsRecurrence(db, e, r, t0, interval)
  }

  ghost function Finished(db: Db, r: string, t0: Time, interval: int): set<string> {
    set e | e in db.executions && IsRecurrence(db, e, r, t0, interval) && db.executions[e].Terminal()
  }

  ghost function FinishedCount(db: Db, r: string, t0: Time): nat {
    if r in db.rules then |Finished(db, r, t0, IntervalOf(db.rules[r]))| else 0
  }

  /** Armed at `t0` with nothing finished, or `k` intervals later with `k` recurrences finished. Of the slots from `t0`
      on, those up to the k-th have the dispatches and the executions, finished exactly before the k-th; each slot
      before it was executed, and each of its timers that was received has its execution. */
  ghost predicate Progresses(db: Db, r: string, t0: Time) {
    && r in db.rules && db.rules[r].Armable() && IntervalOf(db.rules[r]) > 0 && Aligned(t0)
    && db.rules[r].nextFireAt == Some(Slot(t0, IntervalOf(db.rules[r]), FinishedCount(db, r, t0)))
    && InRange(t0, IntervalOf(db.rules[r]), FinishedCount(db, r, t0))
    && Placed(db, db.rules[r].organizationId, r, t0, IntervalOf(db.rules[r]), FinishedCount(db, r, t0))
  }

  ghost predicate Placed(db: Db, organizationId: string, r: string, t0: Time, interval: int, k: int) {
    && (forall d :: d in db.dispatches && d.0 == r && OnGrid(t0, interval, d.1) ==> InProgression(t0, interval, k, d.1))
    && (forall e :: e in Recurrences(db, r, t0, interval) ==> Recurs(db, e, t0, interval, k))
    && (forall j :: 0 <= j < k ==> Visited(db, r, t0, interval, j))
    && (forall t :: t in db.triggers && OnGridTimer(db.triggers[t], organizationId, r, t0, interval) ==> HasExecution(db, r, t))
  }

  ghost predicate Recurs(db: Db, e: string, t0: Time, interval: int, k: int) {
    && IsTimerExecution(db, e) && InProgression(t0, interval, k, SlotOf(db, e))
    && (db.executions[e].Terminal() <==> SlotOf(db, e) < Slot(t0, interval, k))
  }

  ghost predicate Visited(db: Db, r: string, t0: Time, interval: int, j: int) {
    exists e :: e in Recurrences(db, r, t0, interval) && SlotOf(db, e) == Slot(t0, interval, j)
  }

  ghost predicate OnGridTimer(t: TriggerReceipt, organizationId: string, r: string, t0: Time, interval: int) {
    && t.organizationId == organizationId && t.ruleId == Some(r) && t.payload.TimerPayload?
    && OnGrid(t0, interval, t.payload.scheduledFor)
  }

  ghost predicate HasExecution(db: Db, r: string, t: string) {
    exists e :: e in ExecutionsOf(db.executions, r) && db.executions[e].triggerId == t
  }

  // ----- steps that leave the progression where it is -----

  /** The same recurrences, as finished as before; no new dispatch; and every new trigger is elsewhere. */
  ghost predicate SamePlace(a: Db, b: Db, organizationId: string, r: string, t0: Time, interval: int) {
    && (forall d :: d in b.dispatches && d.0 == r ==> d in a.dispatches)
    && (forall e :: e in Recurrences(b, r, t0, interval) <==> e in Recurrences(a, r, t0, interval))
    && (forall e :: e in Recurrences(a, r, t0, interval) ==>
          a.executions[e].triggerId == b.executions[e].triggerId && a.executions[e].Terminal() == b.executions[e].Terminal())
    && (forall e :: e in ExecutionsOf(a.executions, r) ==> e in ExecutionsOf(b.executions, r) && b.executions[e].triggerId == a.executions[e].triggerId)
    && Kept(a.triggers, b.triggers)
    && (forall t :: t in b.triggers && t !in a.triggers ==> !OnGridTimer(b.triggers[t], organizationId, r, t0, interval))
  }

  lemma SamePlaceCount(a: Db, b: Db, organizationId: string, r: string, t0: Time, interval: int)
    requires SamePlace(a, b, organizationId, r, t0, interval)
    ensures Finished(b, r, t0, interval) == Finished(a, r, t0, interval)
  {
    forall e ensures e in Finished(b, r, t0, interval) <==> e in Finished(a, r, t0, interval) {
      assert e in Recurrences(b, r, t0, interval) <==> e in Recurrences(a, r, t0, interval);
    }
  }

  lemma SamePlaceVisited(a: Db, b: Db, organizationId: string, r: string, t0: Time, interval: int, j: int)
    requires SamePlace(a, b, organizationId, r, t0, interval) && Visited(a, r, t0, interval, j)
    ensures Visited(b, r, t0, interval, j)
  {
    hide OnGrid, Slot;
    var e :| e in Recurrences(a, r, t0, interval) && SlotOf(a, e) == Slot(t0, interval, j);
    assert e in Recurrences(b, r, t0, interval);
  }

  lemma SamePlacePlaced(a: Db, b: Db, organizationId: string, r: string, t0: Time, interval: int, k: int)
    requires SamePlace(a, b, organizationId, r, t0, interval) && Placed(a, organizationId, r, t0, interval, k)
    ensures Placed(b, organizationId, r, t0, interval, k)
  {
    hide OnGrid, InProgression, Visited, Slot;
    forall e | e in Recurrences(b, r, t0, interval) ensures Recurs(b, e, t0, interval, k) {
      assert e in Recurrences(a, r, t0, interval) && Recurs(a, e, t0, interval, k);
    }
    forall j | 0 <= j < k ensures Visited(b, r, t0, interval, j) {
      assert Visited(a, r, t0, interval, j);
      SamePlaceVisited(a, b, organizationId, r, t0, interval, j);
    }
    forall t | t in b.triggers && OnGridTimer(b.triggers[t], organizationId, r, t0, interval) ensures HasExecution(b, r, t) {
      assert HasExecution(a, r, t);
      var e :| e in ExecutionsOf(a.executions, r) && a.executions[e].triggerId == t;
      assert e in ExecutionsOf(b.executions, r);
    }
  }

  lemma SamePlaceProgresses(a: Db, b: Db, r: string, t0: Time)
    requires Progresses(a, r, t0) && SamePlace(a, b, a.rules[r].organizationId, r, t0, IntervalOf(a.rules[r]))
    requires r in b.rules && b.rules[r] == a.rules[r]
    ensures Progresses(b, r, t0)
  {
    hide SamePlace, Placed, Slot, Aligned, InRange;
    var organizationId, interval := a.rules[r].organizationId, IntervalOf(a.rules[r]);
    SamePlaceCount(a, b, organizationId, r, t0, interval);
    SamePlacePlaced(a, b, organizationId, r, t0, interval, FinishedCount(a, r, t0));
  }

  lemma UndisturbedPlace(a: Db, b: Db, organizationId: string, r: string, t0: Time, interval: int)
    requires Undisturbed(a, b, r)
    requires Inv(a)
    ensures SamePlace(a, b, organizationId, r, t0, interval)
  {
    hide Inv, OnGrid;
    ExecutionsReferTriggers(a);
    forall e ensures e in Recurrences(b, r, t0, interval) <==> e in Recurrences(a, r, t0, interval) {
      assert e in ExecutionsOf(b.executions, r) <==> e in ExecutionsOf(a.executions, r);
    }
  }

  lemma UndisturbedProgresses(a: Db, b: Db, r: string, t0: Time)
    requires Progresses(a, r, t0) && Undisturbed(a, b, r)
    requires Inv(a)
    ensures Progresses(b, r, t0)
  {
    hide Inv, Progresses, SamePlace;
    RuleOf(a, r, t0);
    UndisturbedPlace(a, b, a.rules[r].organizationId, r, t0, IntervalOf(a.rules[r]));
    SamePlaceProgresses(a, b, r, t0);
  }

  lemma RuleOf(db: Db, r: string, t0: Time)
    requires Progresses(db, r, t0)
    ensures r in db.rules && db.rules[r].Armable()
  {
  }

  // ----- timers of the rule -----

  /** A delivery of a job of the rule: on the grid only the armed slot can still be unreceived, and it is then accepted;
      off the grid it is ignored. */
  lemma TimerProgresses(db: Db, op: Op, r: string, t0: Time)
    requires op.ReceiveTimerOp? && Enabled(db, op) && op.ruleId == r && FromJobs(db, op, r)
    requires Progresses(db, r, t0)
    requires Inv(db)
    ensures Progresses(Apply(db, op), r, t0)
  {
    hide Inv, Progresses, Apply, Received, ScheduleKey, OnGrid;
    RuleOf(db, r, t0);
    if op.dedupeKey != ScheduleKey(r, op.scheduledFor) || Received(db.triggers, op.organizationId, TimerSource, op.dedupeKey) {
      IgnoredTimer(db, op, r);
    } else if OnGrid(t0, IntervalOf(db.rules[r]), op.scheduledFor) {
      UnreceivedIsArmed(db, op, r, t0);
      AcceptedTimer(db, op, r);
      InsertProgresses(db, op, r, t0);
    } else {
      OffGridTimer(db, op, r, t0);
    }
  }

  lemma UnreceivedIsArmed(db: Db, op: Op, r: string, t0: Time)
    requires op.ReceiveTimerOp? && op.ruleId == r && FromJobs(db, op, r) && Progresses(db, r, t0)
    requires OnGrid(t0, IntervalOf(db.rules[r]), op.scheduledFor)
    requires op.dedupeKey == ScheduleKey(r, op.scheduledFor) && !Received(db.triggers, op.organizationId, TimerSource, op.dedupeKey)
    requires Inv(db)
    ensures TimerAccepted(db.rules, op.organizationId, r, op.scheduledFor)
  {
    hide Inv, ScheduleKey, Received, Aligned, Slot, OnGrid, FinishedCount, InRange;
    var interval, k := IntervalOf(db.rules[r]), FinishedCount(db, r, t0);
    DispatchOrganization(db, (r, op.scheduledFor));
    assert InProgression(t0, interval, k, op.scheduledFor);
    var j :| 0 <= j <= k && op.scheduledFor == Slot(t0, interval, j);
    if j < k {
      assert Visited(db, r, t0, interval, j);
      var e :| e in Recurrences(db, r, t0, interval) && SlotOf(db, e) == op.scheduledFor;
      ExecutedIsReceived(db, e, r);
      assert false;
    }
  }

  lemma ExecutedByReceipt(db: Db, e: string, r: string)
    requires e in ExecutionsOf(db.executions, r) && IsTimerExecution(db, e)
    requires Inv(db)
    ensures r in db.rules
    ensures IsReceipt(db.triggers[db.executions[e].triggerId], db.rules[r].organizationId, TimerSource, ScheduleKey(r, SlotOf(db, e)))
  {
    hide Ledger, DispatchKeys, Leases, ReceiptsOk, CommandsOk, NamesOk, RulesValid, SnapshotsValid, ScheduleKey;
    var t := db.executions[e].triggerId;
    assert TriggerOk(db.triggers[t]) && BelongsToTrigger(db.triggers, db.executions[e]);
    assert ExecutionRefers(db.rules, db.triggers, db.executions[e]);
  }

  /** The timer of an execution was received, in the rule's organization and under the key of its slot. */
  lemma ExecutedIsReceived(db: Db, e: string, r: string)
    requires e in ExecutionsOf(db.executions, r) && IsTimerExecution(db, e)
    requires Inv(db)
    ensures r in db.rules && Received(db.triggers, db.rules[r].organizationId, TimerSource, ScheduleKey(r, SlotOf(db, e)))
  {
    hide Inv, ScheduleKey, Received;
    ExecutedByReceipt(db, e, r);
    IsReceived(db.triggers, db.rules[r].organizationId, TimerSource, ScheduleKey(r, SlotOf(db, e)), db.executions[e].triggerId);
  }

  lemma OffGridTimer(db: Db, op: Op, r: string, t0: Time)
    requires op.ReceiveTimerOp? && Enabled(db, op) && op.ruleId == r && Progresses(db, r, t0)
    requires !OnGrid(t0, IntervalOf(db.rules[r]), op.scheduledFor)
    requires Inv(db)
    ensures Progresses(Apply(db, op), r, t0)
  {
    hide Inv, Apply, Enabled, Placed, OnGrid, FinishedCount, SamePlace, InRange;
    OnGridSlot(t0, IntervalOf(db.rules[r]), FinishedCount(db, r, t0));
    NotArmedTimer(db, op, r);
    RecordedTimer(db, op);
    RecordedPlace(db, Apply(db, op), op.triggerId, db.rules[r].organizationId, r, t0, IntervalOf(db.rules[r]));
    SamePlaceProgresses(db, Apply(db, op), r, t0);
  }

  lemma OnGridSlot(t0: Time, interval: int, j: nat)
    requires InRange(t0, interval, j)
    ensures OnGrid(t0, interval, Slot(t0, interval, j))
  {
  }

  lemma NotArmedTimer(db: Db, op: Op, r: string)
    requires op.ReceiveTimerOp? && Enabled(db, op) && op.ruleId == r && r in db.rules && db.rules[r].nextFireAt != Some(op.scheduledFor)
    ensures || Apply(db, op) == db
            || Apply(db, op) == db.(triggers := db.triggers[op.triggerId := TimerReceipt(op.organizationId, r, op.dedupeKey, op.scheduledFor)])
  {
    hide ScheduleKey, Received, InsertExecution;
  }

  lemma RecordedPlace(a: Db, b: Db, triggerId: string, organizationId: string, r: string, t0: Time, interval: int)
    requires b == a || (triggerId in b.triggers && b == a.(triggers := a.triggers[triggerId := b.triggers[triggerId]]))
    requires triggerId !in a.triggers && forall e :: e in a.executions ==> a.executions[e].triggerId != triggerId
    requires triggerId in b.triggers ==> !OnGridTimer(b.triggers[triggerId], organizationId, r, t0, interval)
    ensures SamePlace(a, b, organizationId, r, t0, interval)
  {
    hide OnGrid;
  }

  lemma InsertedRecurrences(db: Db, op: Op, r: string, t0: Time, interval: int, k: nat)
    requires op.ReceiveTimerOp? && Enabled(db, op) && op.ruleId == r && r in db.rules
    requires op.scheduledFor == Slot(t0, interval, k) && InRange(t0, interval, k)
    requires Inv(db)
    ensures var receipt := TimerReceipt(op.organizationId, r, op.dedupeKey, op.scheduledFor);
            var after := InsertExecution(db.(triggers := db.triggers[op.triggerId := receipt]), op.organizationId, r, op.triggerId,
                                         db.rules[r].actions, op.executionId);
            && Finished(after, r, t0, interval) == Finished(db, r, t0, interval)
            && Recurrences(after, r, t0, interval) == Recurrences(db, r, t0, interval) + {op.executionId}
            && IsTimerExecution(after, op.executionId) && SlotOf(after, op.executionId) == op.scheduledFor
            && !after.executions[op.executionId].Terminal()
            && forall e :: e in Recurrences(db, r, t0, interval) ==> IsTimerExecution(after, e) && SlotOf(after, e) == SlotOf(db, e)
  {
    hide Inv, NewReceipts, OnGrid, Slot, ScheduleKey, InRange;
    OnGridSlot(t0, interval, k);
    ExecutionsReferTriggers(db);
  }

  lemma InsertProgresses(db: Db, op: Op, r: string, t0: Time)
    requires op.ReceiveTimerOp? && Enabled(db, op) && op.ruleId == r && Progresses(db, r, t0)
    requires db.rules[r].nextFireAt == Some(op.scheduledFor)
    requires Inv(db)
    ensures var receipt := TimerReceipt(op.organizationId, r, op.dedupeKey, op.scheduledFor);
            Progresses(InsertExecution(db.(triggers := db.triggers[op.triggerId := receipt]), op.organizationId, r, op.triggerId,
                                       db.rules[r].actions, op.executionId), r, t0)
  {
    hide Inv, NewReceipts, Aligned, Slot, OnGrid, Finished, Recurrences, ScheduleKey, InRange;
    var receipt := TimerReceipt(op.organizationId, r, op.dedupeKey, op.scheduledFor);
    var after := InsertExecution(db.(triggers := db.triggers[op.triggerId := receipt]), op.organizationId, r, op.triggerId,
                                 db.rules[r].actions, op.executionId);
    var interval, k := IntervalOf(db.rules[r]), FinishedCount(db, r, t0);
    InsertedRecurrences(db, op, r, t0, interval, k);
    InProgressionSlot(t0, interval, k, k);
    forall e | e in Recurrences(after, r, t0, interval) ensures Recurs(after, e, t0, interval, k) {
      if e != op.executionId {
        InsertedKeeps(db, after, db.rules[r].organizationId, e, op.executionId, r, t0, interval, k);
      }
    }
    forall j | 0 <= j < k ensures Visited(after, r, t0, interval, j) {
      assert Visited(db, r, t0, interval, j);
      var e :| e in Recurrences(db, r, t0, interval) && SlotOf(db, e) == Slot(t0, interval, j);
      assert e in Recurrences(after, r, t0, interval) && SlotOf(after, e) == Slot(t0, interval, j);
    }
    forall t | t in after.triggers && OnGridTimer(after.triggers[t], db.rules[r].organizationId, r, t0, interval)
      ensures HasExecution(after, r, t)
    {
      if t == op.triggerId {
        assert op.executionId in ExecutionsOf(after.executions, r);
      } else {
        assert HasExecution(db, r, t);
        var e :| e in ExecutionsOf(db.executions, r) && db.executions[e].triggerId == t;
        assert e in ExecutionsOf(after.executions, r);
      }
    }
  }

  lemma InProgressionSlot(t0: Time, interval: int, k: int, j: nat)
    requires j <= k
    ensures InProgression(t0, interval, k, Slot(t0, interval, j))
  {
  }

  lemma InsertedKeeps(db: Db, after: Db, organizationId: string, e: string, id: string, r: string, t0: Time, interval: int,
                      k: int)
    requires e != id && Recurrences(after, r, t0, interval) == Recurrences(db, r, t0, interval) + {id} && e in Recurrences(after, r, t0, interval)
    requires Placed(db, organizationId, r, t0, interval, k) && IsTimerExecution(after, e) && SlotOf(after, e) == SlotOf(db, e)
    requires e in db.executions && after.executions[e] == db.executions[e]
    ensures Recurs(after, e, t0, interval, k)
  {
    hide OnGrid, InProgression, Slot;
    assert Recurs(db, e, t0, interval, k);
  }

  // ----- completions of the rule's executions -----

  /** The recurrence of the armed slot ended, and the rule moved one slot on. */
  ghost predicate MovedOn(db: Db, after: Db, e: string, r: string, t0: Time) {
    && r in db.rules && e in Recurrences(db, r, t0, IntervalOf(db.rules[r])) && !db.executions[e].Terminal()
    && var interval := IntervalOf(db.rules[r]);
       var k := FinishedCount(db, r, t0);
       && SlotOf(db, e) == Slot(t0, interval, k)
       && after.triggers == db.triggers
       && e in after.executions && after.executions == db.executions[e := after.executions[e]]
       && SameIdentity(db.executions[e], after.executions[e]) && after.executions[e].Terminal()
       && InRange(t0, interval, k + 1)
       && r in after.rules
       && after.rules[r] == db.rules[r].(nextFireAt := Some(Slot(t0, interval, k + 1)), updatedAt := after.rules[r].updatedAt)
       && (forall d :: d in after.dispatches && d.0 == r ==> d in db.dispatches || d.1 == Slot(t0, interval, k + 1))
       && (forall f :: f in Recurrences(db, r, t0, interval) && f != e ==> SlotOf(db, f) != SlotOf(db, e))
  }

  lemma SlotsIncrease(t0: Time, interval: int, i: int, j: int)
    requires interval > 0 && i < j
    ensures Slot(t0, interval, i) < Slot(t0, interval, j)
  {
    assert i * interval < j * interval;
  }

  lemma MovedOnCount(db: Db, after: Db, e: string, r: string, t0: Time)
    requires MovedOn(db, after, e, r, t0)
    ensures FinishedCount(after, r, t0) == FinishedCount(db, r, t0) + 1
    ensures Recurrences(after, r, t0, IntervalOf(db.rules[r])) == Recurrences(db, r, t0, IntervalOf(db.rules[r]))
    ensures forall f :: f in Recurrences(db, r, t0, IntervalOf(db.rules[r])) ==> SlotOf(after, f) == SlotOf(db, f)
  {
    hide OnGrid, Slot, IsRecurrence, InRange;
    var interval := IntervalOf(db.rules[r]);
    forall f ensures f in Recurrences(after, r, t0, interval) <==> f in Recurrences(db, r, t0, interval)
             ensures f in Finished(after, r, t0, interval) <==> f in Finished(db, r, t0, interval) + {e}
             ensures f in Recurrences(db, r, t0, interval) ==> IsTimerExecution(db, f) && IsTimerExecution(after, f) && SlotOf(after, f) == SlotOf(db, f)
    {
      MovedOnRow(db, after, e, r, t0, interval, f);
    }
    assert Finished(after, r, t0, interval) == Finished(db, r, t0, interval) + {e};
  }

  lemma MovedOnRow(db: Db, after: Db, e: string, r: string, t0: Time, interval: int, f: string)
    requires e in db.executions && e in after.executions && after.executions == db.executions[e := after.executions[e]]
    requires SameIdentity(db.executions[e], after.executions[e]) && after.triggers == db.triggers
    ensures IsRecurrence(after, f, r, t0, interval) <==> IsRecurrence(db, f, r, t0, interval)
    ensures IsRecurrence(db, f, r, t0, interval) ==> IsTimerExecution(db, f) && SlotOf(after, f) == SlotOf(db, f)
  {
    hide OnGrid;
  }

  lemma MovedOnRecurs(db: Db, after: Db, e: string, r: string, t0: Time, f: string)
    requires MovedOn(db, after, e, r, t0) && Progresses(db, r, t0) && f in Recurrences(after, r, t0, IntervalOf(db.rules[r]))
    ensures Recurs(after, f, t0, IntervalOf(db.rules[r]), FinishedCount(db, r, t0) + 1)
  {
    hide Slot, Aligned, OnGrid, FinishedCount, InRange;
    var interval, k := IntervalOf(db.rules[r]), FinishedCount(db, r, t0);
    MovedOnCount(db, after, e, r, t0);
    assert Recurs(db, f, t0, interval, k);
    var j :| 0 <= j <= k && SlotOf(db, f) == Slot(t0, interval, j);
    SlotsIncrease(t0, interval, j, k + 1);
    if f != e && j < k {
      SlotsIncrease(t0, interval, j, k);
    }
  }

  lemma MovedOnProgresses(db: Db, after: Db, e: string, r: string, t0: Time)
    requires MovedOn(db, after, e, r, t0) && Progresses(db, r, t0)
    ensures Progresses(after, r, t0)
  {
    hide Slot, Aligned, Recurs, OnGrid, Recurrences, FinishedCount, InRange;
    var interval, k := IntervalOf(db.rules[r]), FinishedCount(db, r, t0);
    MovedOnCount(db, after, e, r, t0);
    forall f | f in Recurrences(after, r, t0, interval) ensures Recurs(after, f, t0, interval, k + 1) {
      MovedOnRecurs(db, after, e, r, t0, f);
    }
    forall d | d in after.dispatches && d.0 == r && OnGrid(t0, interval, d.1) ensures InProgression(t0, interval, k + 1, d.1) {
      if d in db.dispatches {
        assert InProgression(t0, interval, k, d.1);
      }
    }
    forall j | 0 <= j < k + 1 ensures Visited(after, r, t0, interval, j) {
      if j < k {
        assert Visited(db, r, t0, interval, j);
      }
    }
    forall t | t in after.triggers && OnGridTimer(after.triggers[t], db.rules[r].organizationId, r, t0, interval)
      ensures HasExecution(after, r, t)
    {
      assert HasExecution(db, r, t);
      var f :| f in ExecutionsOf(db.executions, r) && db.executions[f].triggerId == t;
      assert f in ExecutionsOf(after.executions, r);
    }
  }

  /** What a running recurrence is: the one of the armed slot. */
  lemma RunningIsCurrent(db: Db, e: string, r: string, t0: Time)
    requires Progresses(db, r, t0) && e in Recurrences(db, r, t0, IntervalOf(db.rules[r])) && !db.executions[e].Terminal()
    requires Inv(db)
    ensures SlotOf(db, e) == Slot(t0, IntervalOf(db.rules[r]), FinishedCount(db, r, t0))
    ensures forall f :: f in Recurrences(db, r, t0, IntervalOf(db.rules[r])) && f != e ==> SlotOf(db, f) != SlotOf(db, e)
  {
    hide Inv, Slot, Aligned, ScheduleKey, OnGrid, FinishedCount, InRange;
    var interval, k := IntervalOf(db.rules[r]), FinishedCount(db, r, t0);
    assert Recurs(db, e, t0, interval, k);
    var j :| 0 <= j <= k && SlotOf(db, e) == Slot(t0, interval, j);
    if j < k {
      SlotsIncrease(t0, interval, j, k);
    }
    forall f | f in Recurrences(db, r, t0, interval) && f != e ensures SlotOf(db, f) != SlotOf(db, e) {
      if SlotOf(db, f) == SlotOf(db, e) {
        OneExecutionPerSlot(db, e, f);
      }
    }
  }

  lemma AdvancesOneSlot(db: Db, payload: Payload, now: Time, r: string, t0: Time, k: nat)
    requires r in db.rules && db.rules[r].Armable() && IntervalOf(db.rules[r]) > 0 && Aligned(t0)
    requires payload.TimerPayload? && payload.scheduledFor == Slot(t0, IntervalOf(db.rules[r]), k)
    requires db.rules[r].nextFireAt == Some(payload.scheduledFor)
    ensures var next := Slot(t0, IntervalOf(db.rules[r]), k + 1);
            AdvanceSchedule(db, r, payload, now)
            == if Representable(next) then
                 Ok(db.(rules := db.rules[r := db.rules[r].(nextFireAt := Some(next), updatedAt := now)],
                        dispatches := ReplacePendingSchedule(db.dispatches, db.rules[r].organizationId, r, Some(next))))
               else Err(Runtime)
  {
    hide PayloadJson, ReplacePendingSchedule;
    var interval := IntervalOf(db.rules[r]);
    TimerPayloadTime(payload);
    assert (k + 1) * interval == k * interval + interval;
    WholeSecondsKeepAlignment(t0, (k + 1) * interval);
  }

  lemma CompletionMovesOn(db: Db, op: Op, r: string, t0: Time)
    requires op.CompleteOp? && Enabled(db, op) && op.claim.ruleId == r && Progresses(db, r, t0)
    requires HoldsLease(db.executions, op.claim, op.now) && op.claim.executionId in Recurrences(db, r, t0, IntervalOf(db.rules[r]))
    requires Inv(db)
    ensures if Representable(Slot(t0, IntervalOf(db.rules[r]), FinishedCount(db, r, t0) + 1))
            then MovedOn(db, Apply(db, op), op.claim.executionId, r, t0) else Apply(db, op) == db
  {
    hide Inv, AdvanceSchedule, ReplacePendingSchedule, Slot, Placed, Stored, Representable, Apply, OnGrid, FinishedCount, InRange;
    var claim := op.claim;
    var k := FinishedCount(db, r, t0);
    RangeGrows(t0, IntervalOf(db.rules[r]), k);
    RunningIsCurrent(db, claim.executionId, r, t0);
    SourceTellsPayload(db, claim.triggerId);
    CompletionResult(db, op);
    var ended := EndAttempt(db, claim, if op.succeeded then Succeeded else Failed,
                            if op.succeeded then AttemptSucceeded else AttemptFailed, op.failure);
    AdvancesOneSlot(ended, claim.payload, op.now, r, t0, k);
    ArmedDispatches(db.dispatches, db.rules[r].organizationId, r, Slot(t0, IntervalOf(db.rules[r]), k + 1));
    StoredSlot(t0, IntervalOf(db.rules[r]), k + 1);
  }

  lemma RangeGrows(t0: Time, interval: int, k: nat)
    requires InRange(t0, interval, k)
    ensures InRange(t0, interval, k + 1) <==> Representable(Slot(t0, interval, k + 1))
  {
    hide Slot, Representable;
  }

  /** An execution of the rule for anything but the progression ends without moving it. */
  lemma OtherCompletion(db: Db, op: Op, r: string, t0: Time)
    requires op.CompleteOp? && Enabled(db, op) && op.claim.ruleId == r && Progresses(db, r, t0)
    requires HoldsLease(db.executions, op.claim, op.now) && op.claim.executionId !in Recurrences(db, r, t0, IntervalOf(db.rules[r]))
    requires Inv(db)
    ensures Progresses(Apply(db, op), r, t0)
  {
    hide Inv, AdvanceSchedule, EndAttempt, HoldsLease, Slot, Placed, OnGrid, FinishedCount, SamePlace, InRange;
    var claim := op.claim;
    var status := if op.succeeded then Succeeded else Failed;
    var ended := EndAttempt(db, claim, status, LastAttemptStatus(status), op.failure);
    EndFrame(db, claim, status, LastAttemptStatus(status), op.failure);
    SourceTellsPayload(db, claim.triggerId);
    OnGridSlot(t0, IntervalOf(db.rules[r]), FinishedCount(db, r, t0));
    if claim.payload.TimerPayload? {
      assert claim.executionId in ExecutionsOf(db.executions, r) && IsTimerExecution(db, claim.executionId);
      OtherSlotStays(ended, r, claim.payload, op.now);
    }
    assert Apply(db, op) == ended;
    EndedPlace(db, claim, status, LastAttemptStatus(status), op.failure, db.rules[r].organizationId, r, t0, IntervalOf(db.rules[r]));
    SamePlaceProgresses(db, ended, r, t0);
  }

  lemma EndedPlace(db: Db, claim: Claim, status: ExecutionStatus, attemptStatus: AttemptStatus, failure: Option<string>,
                   organizationId: string, r: string, t0: Time, interval: int)
    requires claim.executionId in db.executions && claim.executionId !in Recurrences(db, r, t0, interval)
    ensures SamePlace(db, EndAttempt(db, claim, status, attemptStatus, failure), organizationId, r, t0, interval)
  {
    hide OnGrid;
  }

  /** The completion of a recurrence moves the rule on by one slot, or fails as a whole past the last instant. */
  lemma CompletionProgresses(db: Db, op: Op, r: string, t0: Time)
    requires op.CompleteOp? && Enabled(db, op) && op.claim.ruleId == r && Progresses(db, r, t0)
    requires Inv(db)
    ensures Progresses(Apply(db, op), r, t0)
  {
    hide Inv, MovedOn, Apply, Enabled, Slot, Representable, HoldsLease, Progresses, Recurrences;
    RuleOf(db, r, t0);
    if !HoldsLease(db.executions, op.claim, op.now) {
      StaleCompletion(db, op);
    } else if op.claim.executionId !in Recurrences(db, r, t0, IntervalOf(db.rules[r])) {
      OtherCompletion(db, op, r, t0);
    } else {
      CompletionMovesOn(db, op, r, t0);
      if Representable(Slot(t0, IntervalOf(db.rules[r]), FinishedCount(db, r, t0) + 1)) {
        MovedOnProgresses(db, Apply(db, op), op.claim.executionId, r, t0);
      }
    }
  }

  lemma StoredSlot(t0: Time, interval: int, j: int)
    ensures Aligned(t0) ==> Stored(Slot(t0, interval, j)) == Slot(t0, interval, j)
  {
    WholeSecondsKeepAlignment(t0, j * interval);
  }

  lemma ArmedDispatches(ds: Dispatches, organizationId: string, r: string, next: Time)
    ensures forall d :: d in ReplacePendingSchedule(ds, organizationId, r, Some(next)) && d.0 == r ==> d in ds || d.1 == Stored(next)
  {
    forall d | d in ReplacePendingSchedule(ds, organizationId, r, Some(next)) && d.0 == r ensures d in ds || d.1 == Stored(next) {
      DispatchAfter(ds, organizationId, r, Some(next), d);
    }
  }

  /** Every step keeps the progression of a rule it does not edit. */
  lemma StepProgresses(db: Db, op: Op, r: string, t0: Time)
    requires Enabled(db, op) && Progresses(db, r, t0) && FromJobs(db, op, r)
    requires r in Apply(db, op).rules && Apply(db, op).rules[r].revision == db.rules[r].revision
    requires Inv(db)
    ensures Progresses(Apply(db, op), r, t0)
  {
    hide Inv, Enabled, Apply, Progresses, Undisturbed, FromJobs;
    RuleOf(db, r, t0);
    if op.ReceiveTimerOp? && op.ruleId == r {
      TimerProgresses(db, op, r, t0);
    } else if op.CompleteOp? && op.claim.ruleId == r {
      CompletionProgresses(db, op, r, t0);
    } else {
      StepElsewhere(db, op, r);
      UndisturbedProgresses(db, Apply(db, op), r, t0);
    }
  }

  // ----- whole runs -----

  /** Something of an earlier arming is left at a slot: a dispatch, or a received timer. */
  ghost predicate Used(db: Db, r: string, t: Time)
    requires r in db.rules
  {
    (r, t) in db.dispatches || Received(db.triggers, db.rules[r].organizationId, TimerSource, ScheduleKey(r, t))
  }

  /** Nothing is left at any slot that the rule would come to after the armed one. */
  ghost predicate Clear(db: Db, r: string)
    requires r in db.rules && db.rules[r].nextFireAt.Some?
  {
    forall j :: 1 <= j && InRange(db.rules[r].nextFireAt.value, IntervalOf(db.rules[r]), j) ==>
      !Used(db, r, Slot(db.rules[r].nextFireAt.value, IntervalOf(db.rules[r]), j))
  }

  lemma ClearOnGrid(db: Db, r: string, t: Time)
    requires r in db.rules && db.rules[r].nextFireAt.Some? && Clear(db, r)
    requires OnGrid(db.rules[r].nextFireAt.value, IntervalOf(db.rules[r]), t) && Used(db, r, t)
    ensures t == db.rules[r].nextFireAt.value
  {
    hide Used, InRange, Slot;
    FirstSlot(db.rules[r].nextFireAt.value, IntervalOf(db.rules[r]));
  }

  lemma FirstSlot(t0: Time, interval: int)
    ensures Slot(t0, interval, 0) == t0
  {
  }

  /** With nothing left ahead, the only recurrence there can be is that of the armed slot, unless the rule is stuck. */
  lemma ClearRecurrence(db: Db, r: string, e: string)
    requires r in db.rules && db.rules[r].Armable() && db.rules[r].nextFireAt.Some? && Clear(db, r) && !Stuck(db, r)
    requires IsRecurrence(db, e, r, db.rules[r].nextFireAt.value, IntervalOf(db.rules[r]))
    requires Inv(db)
    ensures IsUnfinished(db, e, db.rules[r].nextFireAt.value)
  {
    hide Inv, Clear, OnGrid, ScheduleKey, Received;
    ExecutedIsReceived(db, e, r);
    ClearOnGrid(db, r, SlotOf(db, e));
    assert Spent(db, r, SlotOf(db, e));
    var f :| f in ExecutionsOf(db.executions, r) && IsUnfinished(db, f, SlotOf(db, e));
    OneExecutionPerSlot(db, e, f);
  }

  lemma TimerIsReceived(db: Db, t: string, r: string)
    requires t in db.triggers && r in db.rules && db.triggers[t].organizationId == db.rules[r].organizationId
    requires db.triggers[t].ruleId == Some(r) && db.triggers[t].payload.TimerPayload?
    requires Inv(db)
    ensures IsReceipt(db.triggers[t], db.rules[r].organizationId, TimerSource, ScheduleKey(r, db.triggers[t].payload.scheduledFor))
    ensures Used(db, r, db.triggers[t].payload.scheduledFor)
  {
    hide References, Ledger, DispatchKeys, IntakeOk, Leases, ReceiptsOk, CommandsOk, NamesOk, RulesValid, SnapshotsValid,
         ScheduleKey;
    assert TriggerOk(db.triggers[t]);
  }

  lemma ClearTimer(db: Db, r: string, t: string)
    requires r in db.rules && db.rules[r].Armable() && db.rules[r].nextFireAt.Some? && Clear(db, r) && !Stuck(db, r)
    requires t in db.triggers && OnGridTimer(db.triggers[t], db.rules[r].organizationId, r, db.rules[r].nextFireAt.value, IntervalOf(db.rules[r]))
    requires Inv(db)
    ensures HasExecution(db, r, t)
  {
    hide Inv, Clear, OnGrid, ScheduleKey;
    var at := db.rules[r].nextFireAt.value;
    TimerIsReceived(db, t, r);
    ClearOnGrid(db, r, db.triggers[t].payload.scheduledFor);
    assert Spent(db, r, at);
    var e :| e in ExecutionsOf(db.executions, r) && IsUnfinished(db, e, at);
    ExecutedByReceipt(db, e, r);
    ReceiptIsUnique(db, t, db.executions[e].triggerId);
  }

  /** An armed rule keeps a stored instant. */
  lemma ArmedIsAligned(db: Db, r: string)
    requires r in db.rules && db.rules[r].Armable()
    requires Inv(db)
    ensures db.rules[r].nextFireAt.Some? && Aligned(db.rules[r].nextFireAt.value) && IntervalOf(db.rules[r]) > 0
  {
    hide References, TriggersOk, IntakeOk, Leases, ReceiptsOk, CommandsOk, NamesOk, SnapshotsValid, ScheduleKey;
    InvariantArmable(db, r);
    assert KeyOfSlot((r, db.rules[r].nextFireAt.value), db.dispatches[(r, db.rules[r].nextFireAt.value)].idempotencyKey);
  }

  /** Every armed rule that is not stuck and has nothing left ahead is at the start of a progression. */
  lemma ClearProgresses(db: Db, r: string)
    requires r in db.rules && db.rules[r].Armable() && db.rules[r].nextFireAt.Some? && Clear(db, r) && !Stuck(db, r)
    requires Inv(db)
    ensures Progresses(db, r, db.rules[r].nextFireAt.value) && FinishedCount(db, r, db.rules[r].nextFireAt.value) == 0
  {
    hide Inv, Clear, OnGrid, Slot, Stuck, Aligned, HasExecution, IsRecurrence;
    var t0, interval := db.rules[r].nextFireAt.value, IntervalOf(db.rules[r]);
    ArmedIsAligned(db, r);
    FirstSlot(t0, interval);
    InProgressionSlot(t0, interval, 0, 0);
    forall e | e in Recurrences(db, r, t0, interval) ensures IsUnfinished(db, e, t0) {
      ClearRecurrence(db, r, e);
    }
    assert Finished(db, r, t0, interval) == {} by {
      assert forall e :: e in Finished(db, r, t0, interval) ==> e in Recurrences(db, r, t0, interval);
    }
    forall e | e in Recurrences(db, r, t0, interval) ensures Recurs(db, e, t0, interval, 0) {
      assert IsUnfinished(db, e, t0);
    }
    forall d | d in db.dispatches && d.0 == r && OnGrid(t0, interval, d.1) ensures InProgression(t0, interval, 0, d.1) {
      assert d == (r, d.1) && Used(db, r, d.1);
      ClearOnGrid(db, r, d.1);
    }
    forall t | t in db.triggers && OnGridTimer(db.triggers[t], db.rules[r].organizationId, r, t0, interval) ensures HasExecution(db, r, t) {
      ClearTimer(db, r, t);
    }
  }

  /** In every run, from any state in which a rule is armed, not stuck, and has nothing left ahead, and as long as it is
      not edited and its timers are deliveries of payloads handed to Jobs: its next fire is the armed one plus one
      interval per finished recurrence, and its dispatches and executions fill exactly those slots. */
  lemma {:induction false} RecurringProgression(states: seq<Db>, ops: seq<Op>, i: nat, j: nat, r: string)
    requires Run(states, ops) && i <= j < |states|
    requires r in states[i].rules && states[i].rules[r].Armable() && states[i].rules[r].nextFireAt.Some?
    requires Clear(states[i], r) && !Stuck(states[i], r)
    requires r in states[j].rules && states[j].rules[r].revision == states[i].rules[r].revision
    requires forall n :: i <= n < j ==> FromJobs(states[n], ops[n], r)
    requires Inv(states[0])
    ensures Progresses(states[j], r, states[i].rules[r].nextFireAt.value)
    decreases j
  {
    hide Inv, Enabled, Apply, Progresses, FromJobs, Clear, Stuck;
    InvariantOverRuns(states, ops, i);
    if j == i {
      ClearProgresses(states[i], r);
    } else {
      UneditedBefore(states, ops, i, j - 1, r);
      RecurringProgression(states, ops, i, j - 1, r);
      InvariantOverRuns(states, ops, j - 1);
      StepProgresses(states[j - 1], ops[j - 1], r, states[i].rules[r].nextFireAt.value);
    }
  }

  /** The recurrences of an unedited schedule are its slots 0 to k - 1, each finished, and at most the armed slot k. */
  lemma ExecutedSlots(db: Db, r: string, t0: Time, j: nat)
    requires Progresses(db, r, t0)
    requires Inv(db)
    ensures var interval, k := IntervalOf(db.rules[r]), FinishedCount(db, r, t0);
            && (j < k ==> Visited(db, r, t0, interval, j))
            && (Visited(db, r, t0, interval, j) ==> j <= k)
            && (forall e, f :: e in Recurrences(db, r, t0, interval) && f in Recurrences(db, r, t0, interval) && SlotOf(db, e) == SlotOf(db, f) ==> e == f)
            && (forall e :: e in Recurrences(db, r, t0, interval) ==> (db.executions[e].Terminal() <==> SlotOf(db, e) < Slot(t0, interval, k)))
  {
    hide Inv, Slot, Aligned, OnGrid, FinishedCount;
    var interval, k := IntervalOf(db.rules[r]), FinishedCount(db, r, t0);
    if Visited(db, r, t0, interval, j) && k < j {
      var e :| e in Recurrences(db, r, t0, interval) && SlotOf(db, e) == Slot(t0, interval, j);
      assert Recurs(db, e, t0, interval, k);
      var i :| 0 <= i <= k && SlotOf(db, e) == Slot(t0, interval, i);
      SlotsIncrease(t0, interval, i, j);
    }
    forall e, f | e in Recurrences(db, r, t0, interval) && f in Recurrences(db, r, t0, interval) && SlotOf(db, e) == SlotOf(db, f) ensures e == f {
      OneExecutionPerSlot(db, e, f);
    }
    forall e | e in Recurrences(db, r, t0, interval) ensures db.executions[e].Terminal() <==> SlotOf(db, e) < Slot(t0, interval, k) {
      assert Recurs(db, e, t0, interval, k);
    }
  }
}
