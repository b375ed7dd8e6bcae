/** Runs in which a worker acts on an execution only while its claim is the current one: the receipts of an
    execution then always read succeeded, at most one failed, pending. Recording a receipt checks no lease,
    so nothing of this holds of other runs. */
module Shape {
  import opened Results
  import opened Text
  import opened Schedule
  import opened Rules
  import opened Payloads
  import opened Targets
  import opened Keys
  import opened Tables
  import opened Transactions
  import opened Invariants
  import opened Preservation
  import opened Runs
  import opened Frames
  import opened History
  import opened Effects
  import opened Workers
  import opened Safety

  /** The execution is running the very attempt of this claim. */
  ghost predicate Current(db: Db, c: Claim) {
    && c.executionId in db.executions
    && db.executions[c.executionId].status.Running? && db.executions[c.executionId].attempts == c.attempt
  }

  ghost predicate RespectsLease(w: World, m: Move) {
    m.ReadReceipt? || m.Invoke? || m.Record? ==> Current(w.db, m.claim)
  }

  ghost predicate RespectfulRun(ws: seq<World>, ms: seq<Move>) {
    WorldRun(ws, ms) && ws[0] == START && forall i :: 0 <= i < |ms| ==> RespectsLease(ws[i], ms[i])
  }

  function StatusAt(receipts: Receipts, k: (string, int)): ReceiptStatus {
    if k in receipts then receipts[k].status else ActionPending
  }

  /** The statuses of an execution's receipts, in the order of its actions. */
  function Statuses(db: Db, e: string): (s: seq<ReceiptStatus>)
    requires e in db.executions
    ensures |s| == |db.executions[e].actions|
  {
    seq(|db.executions[e].actions|, i => StatusAt(db.receipts, (e, i)))
  }

  predicate DoneUpTo(s: seq<ReceiptStatus>, n: int) {
    n <= |s| && forall i :: 0 <= i < n ==> s[i].ActionSucceeded?
  }

  /** Succeeded before `n`, not succeeded at `n`, pending after it. */
  predicate OpenAt(s: seq<ReceiptStatus>, n: int) {
    && 0 <= n && DoneUpTo(s, n) && (n < |s| ==> !s[n].ActionSucceeded?)
    && forall i :: n < i < |s| ==> s[i].ActionPending?
  }

  predicate FailedAt(s: seq<ReceiptStatus>, n: int) {
    0 <= n < |s| && s[n].ActionFailed?
  }

  ghost predicate ShapeOk(e: Execution, s: seq<ReceiptStatus>) {
    && (exists n :: OpenAt(s, n))
    && (e.status.Succeeded? ==> DoneUpTo(s, |s|))
    && (e.status.Failed? ==> exists n :: FailedAt(s, n))
  }

  ghost predicate PlaceOk(s: seq<ReceiptStatus>, place: Place) {
    match place
    case At(i) => DoneUpTo(s, i)
    case Holding(i, _) => DoneUpTo(s, i) && i < |s| && !s[i].ActionSucceeded?
    case Heard(i, _) => DoneUpTo(s, i) && i < |s| && !s[i].ActionSucceeded?
    case Refusing(_) => exists n :: FailedAt(s, n)
    case _ => true
  }

  ghost predicate ShapeInv(w: World) {
    && ShapesOk(w.db)
    && (forall c :: c in w.threads && Current(w.db, c) ==> PlaceOk(Statuses(w.db, c.executionId), w.threads[c]))
  }

  // ----- receipts under one step -----

  function Recorded(op: Op, e: string, s: seq<ReceiptStatus>): seq<ReceiptStatus> {
    if op.CompleteActionOp? && op.executionId == e && 0 <= op.index < |s|
    then s[op.index := if op.succeeded then ActionSucceeded else ActionFailed] else s
  }

  function RecordedAt(op: Op, k: (string, int), status: ReceiptStatus): ReceiptStatus {
    if op.CompleteActionOp? && k == (op.executionId, op.index) then if op.succeeded then ActionSucceeded else ActionFailed else status
  }

  lemma StatusStep(db: Db, op: Op, k: (string, int))
    requires Enabled(db, op) && k in db.receipts
    requires Inv(db)
    ensures StatusAt(Apply(db, op).receipts, k) == RecordedAt(op, k, StatusAt(db.receipts, k))
  {
    hide Inv, Apply, Enabled;
    StepMovesReceipt(db, op, k);
  }

  lemma HasAllReceipts(db: Db, e: string)
    requires e in db.executions
    requires Inv(db)
    ensures forall i :: 0 <= i < |db.executions[e].actions| ==> (e, i) in db.receipts
  {
    hide Inv, ReceiptFor;
    InvariantReceipts(db);
  }

  lemma SnapshotLength(db: Db, op: Op, e: string)
    requires Enabled(db, op) && e in db.executions
    requires Inv(db)
    ensures e in Apply(db, op).executions && Apply(db, op).executions[e].actions == db.executions[e].actions
  {
    hide Inv, Apply, Enabled, RulesLater, AttemptsLater, DispatchesLater, ReceiptsLater, Kept;
    StepIsLater(db, op);
    assert ExecutionLater(db.executions[e], Apply(db, op).executions[e]);
  }

  lemma StatusesStep(db: Db, op: Op, e: string)
    requires Enabled(db, op) && e in db.executions && e in Apply(db, op).executions
    requires Inv(db)
    ensures Statuses(Apply(db, op), e) == Recorded(op, e, Statuses(db, e))
  {
    hide Inv, Apply, Enabled, StatusAt;
    SnapshotLength(db, op, e);
    HasAllReceipts(db, e);
    forall i | 0 <= i < |db.executions[e].actions|
      ensures StatusAt(Apply(db, op).receipts, (e, i)) == RecordedAt(op, (e, i), StatusAt(db.receipts, (e, i)))
    {
      StatusStep(db, op, (e, i));
    }
  }

  lemma NewStatuses(db: Db, op: Op, e: string)
    requires Enabled(db, op) && e !in db.executions && e in Apply(db, op).executions
    requires Inv(db)
    ensures OpenAt(Statuses(Apply(db, op), e), 0) && Apply(db, op).executions[e].status.Pending?
  {
    hide Inv, Apply, Enabled, HoldsLease;
    StepMovesExecution(db, op, e);
    InvariantReceipts(db);
    forall i | 0 <= i < |Apply(db, op).executions[e].actions| ensures StatusAt(Apply(db, op).receipts, (e, i)).ActionPending? {
      StepMovesReceipt(db, op, (e, i));
    }
  }

  lemma CurrentBefore(db: Db, op: Op, c: Claim)
    requires Enabled(db, op) && Genuine(db, c) && Current(Apply(db, op), c)
    requires Inv(db)
    ensures Current(db, c)
  {
    hide Inv, Apply, Enabled, HoldsLease;
    StepMovesExecution(db, op, c.executionId);
  }

  lemma OneCurrentClaim(w: World, c: Claim, d: Claim)
    requires c in w.threads && d in w.threads && c.executionId == d.executionId && Current(w.db, c) && Current(w.db, d)
    requires WorldInv(w)
    ensures c == d
  {
    hide Inv, CallsOk, EffectsOk, ReportsOk, JobsOk;
    assert ThreadOk(w.db, w.applied, c, w.threads[c]) && ThreadOk(w.db, w.applied, d, w.threads[d]);
  }

  // ----- shapes -----

  /** Recording keeps the shape of an execution exactly if everything before the action succeeded, and: a success is
      recorded where there was one, or of an execution that has not failed; a failure is recorded where there was no
      success, or right before the first action without one, if that is still pending and the execution has not
      succeeded. */
  predicate RecordGuard(e: Execution, s: seq<ReceiptStatus>, i: int, succeeded: bool)
    requires 0 <= i < |s|
  {
    && DoneUpTo(s, i)
    && if succeeded then s[i].ActionSucceeded? || !e.status.Failed?
       else !s[i].ActionSucceeded? || (!e.status.Succeeded? && (i + 1 < |s| ==> s[i + 1].ActionPending?))
  }

  lemma RecordingKeepsShapeIff(e: Execution, s: seq<ReceiptStatus>, i: int, succeeded: bool)
    requires ShapeOk(e, s) && 0 <= i < |s|
    ensures ShapeOk(e, s[i := if succeeded then ActionSucceeded else ActionFailed]) <==> RecordGuard(e, s, i, succeeded)
  {
    var n :| OpenAt(s, n);
    if succeeded {
      SuccessKeepsShapeIff(e, s, n, i);
    } else {
      FailureKeepsShapeIff(e, s, n, i);
    }
  }

  lemma SuccessKeepsShapeIff(e: Execution, s: seq<ReceiptStatus>, n: int, i: int)
    requires ShapeOk(e, s) && OpenAt(s, n) && 0 <= i < |s|
    ensures RecordGuard(e, s, i, true) <==> i < n || (i == n && !e.status.Failed?)
    ensures ShapeOk(e, s[i := ActionSucceeded]) <==> RecordGuard(e, s, i, true)
  {
    var after := s[i := ActionSucceeded];
    if i < n {
      assert after == s;
    } else if i == n {
      assert OpenAt(after, n + 1);
    } else {
      assert !after[n].ActionSucceeded? && after[i].ActionSucceeded?;
    }
  }

  lemma FailureKeepsShapeIff(e: Execution, s: seq<ReceiptStatus>, n: int, i: int)
    requires ShapeOk(e, s) && OpenAt(s, n) && 0 <= i < |s|
    ensures RecordGuard(e, s, i, false)
            <==> i == n || (i + 1 == n && !e.status.Succeeded? && (n < |s| ==> s[n].ActionPending?))
    ensures ShapeOk(e, s[i := ActionFailed]) <==> RecordGuard(e, s, i, false)
  {
    var after := s[i := ActionFailed];
    assert FailedAt(after, i);
    if RecordGuard(e, s, i, false) {
      assert OpenAt(after, i);
    }
    if m :| OpenAt(after, m) {
      assert m == i && after[..i] == s[..i];
      assert forall j :: i < j < |s| ==> after[j] == s[j];
    }
  }

  lemma RecorderIsOpen(w: World, m: Move)
    requires CanMove(w, m) && m.Record? && RespectsLease(w, m) && WorldInv(w) && ShapeInv(w)
    ensures Current(w.db, m.claim)
    ensures var s := Statuses(w.db, m.claim.executionId);
            DoneUpTo(s, w.threads[m.claim].index) && w.threads[m.claim].index < |s| && !s[w.threads[m.claim].index].ActionSucceeded?
  {
    hide WorldInv, Genuine;
  }

  /** Ending an execution keeps its shape exactly if its receipts say so. */
  ghost predicate EndGuard(s: seq<ReceiptStatus>, succeeded: bool) {
    if succeeded then DoneUpTo(s, |s|) else exists n :: FailedAt(s, n)
  }

  /** What a recording, or a completion that goes through, must meet; every other transaction meets it. */
  ghost predicate OpGuard(db: Db, op: Op) {
    && (op.CompleteActionOp? && op.executionId in db.executions && 0 <= op.index < |Statuses(db, op.executionId)| ==>
          RecordGuard(db.executions[op.executionId], Statuses(db, op.executionId), op.index, op.succeeded))
    && (op.CompleteOp? && op.claim.executionId in db.executions
        && CompleteExecution(db, op.claim, op.succeeded, op.failure, op.now).reply.Ok? ==>
          EndGuard(Statuses(db, op.claim.executionId), op.succeeded))
  }

  ghost predicate ShapesOk(db: Db) {
    forall e :: e in db.executions ==> ShapeOk(db.executions[e], Statuses(db, e))
  }

  predicate Concerns(op: Op, e: string) {
    (op.CompleteActionOp? && op.executionId == e) || (op.CompleteOp? && op.claim.executionId == e)
  }

  lemma OtherOpKeepsShape(db: Db, op: Op, e: string)
    requires Enabled(db, op) && e in db.executions && e in Apply(db, op).executions && ShapeOk(db.executions[e], Statuses(db, e))
    requires !Concerns(op, e)
    requires Inv(db)
    ensures ShapeOk(Apply(db, op).executions[e], Statuses(Apply(db, op), e))
  {
    hide Inv, Apply, Enabled, IsLeasedTo, Statuses, DoneUpTo, FailedAt, OpenAt;
    StatusesStep(db, op, e);
    StepMovesExecution(db, op, e);
  }

  lemma RecordingOpKeepsShapeIff(db: Db, op: Op, e: string)
    requires Enabled(db, op) && e in db.executions && e in Apply(db, op).executions && ShapeOk(db.executions[e], Statuses(db, e))
    requires op.CompleteActionOp? && op.executionId == e
    requires Inv(db)
    ensures ShapeOk(Apply(db, op).executions[e], Statuses(Apply(db, op), e)) <==> OpGuard(db, op)
  {
    hide Inv, Apply, Enabled, Statuses, ShapeOk, RecordGuard;
    StatusesStep(db, op, e);
    StepWrites(db, op);
    if 0 <= op.index < |Statuses(db, e)| {
      RecordingKeepsShapeIff(db.executions[e], Statuses(db, e), op.index, op.succeeded);
    }
  }

  lemma CompletionKeepsShapeIff(db: Db, op: Op, e: string)
    requires Enabled(db, op) && e in db.executions && e in Apply(db, op).executions && ShapeOk(db.executions[e], Statuses(db, e))
    requires op.CompleteOp? && op.claim.executionId == e
    requires Inv(db)
    ensures ShapeOk(Apply(db, op).executions[e], Statuses(Apply(db, op), e)) <==> OpGuard(db, op)
  {
    hide Inv, CompleteExecution, Statuses, OpenAt, DoneUpTo, FailedAt;
    StatusesStep(db, op, e);
    CompletedStatus(db, op.claim, op.succeeded, op.failure, op.now);
  }

  lemma NewShape(db: Db, op: Op, e: string)
    requires Enabled(db, op) && e !in db.executions && e in Apply(db, op).executions
    requires Inv(db)
    ensures ShapeOk(Apply(db, op).executions[e], Statuses(Apply(db, op), e))
  {
    hide Inv, Apply, Enabled, Statuses, OpenAt, DoneUpTo, FailedAt;
    NewStatuses(db, op, e);
    assert OpenAt(Statuses(Apply(db, op), e), 0);
  }

  lemma OpKeepsShapeIff(db: Db, op: Op, e: string)
    requires Enabled(db, op) && e in db.executions && e in Apply(db, op).executions && ShapeOk(db.executions[e], Statuses(db, e))
    requires Inv(db)
    ensures ShapeOk(Apply(db, op).executions[e], Statuses(Apply(db, op), e)) <==> !Concerns(op, e) || OpGuard(db, op)
  {
    hide Inv, Apply, Enabled, Statuses, ShapeOk, OpGuard;
    if !Concerns(op, e) {
      OtherOpKeepsShape(db, op, e);
    } else if op.CompleteOp? {
      CompletionKeepsShapeIff(db, op, e);
    } else {
      RecordingOpKeepsShapeIff(db, op, e);
    }
  }

  /** Of databases whose receipts are in shape, a transaction leaves another such one exactly if it meets its guard. */
  lemma StepKeepsShapesIff(db: Db, op: Op)
    requires Enabled(db, op) && ShapesOk(db)
    requires Inv(db)
    ensures ShapesOk(Apply(db, op)) <==> OpGuard(db, op)
  {
    hide Inv, Apply, Enabled, Statuses, ShapeOk, OpGuard;
    var after := Apply(db, op);
    KeepsExecutions(db, op);
    forall e | e in after.executions
      ensures ShapeOk(after.executions[e], Statuses(after, e)) <==> e !in db.executions || !Concerns(op, e) || OpGuard(db, op)
    {
      if e in db.executions {
        OpKeepsShapeIff(db, op, e);
      } else {
        NewShape(db, op, e);
      }
    }
    if e :| e in db.executions && Concerns(op, e) {
      assert ShapesOk(after) ==> ShapeOk(after.executions[e], Statuses(after, e));
    } else {
      NoConcern(db, op);
    }
  }

  lemma KeepsExecutions(db: Db, op: Op)
    requires Enabled(db, op)
    requires Inv(db)
    ensures forall e :: e in db.executions ==> e in Apply(db, op).executions
  {
    hide Inv, Apply, Enabled, RulesLater, AttemptsLater, ReceiptsLater, DispatchesLater, Kept;
    StepIsLater(db, op);
  }

  lemma NoConcern(db: Db, op: Op)
    requires forall e :: e in db.executions ==> !Concerns(op, e)
    ensures OpGuard(db, op)
  {
    hide Statuses, CompleteExecution, RecordGuard, EndGuard;
    assert op.CompleteOp? ==> Concerns(op, op.claim.executionId);
    assert op.CompleteActionOp? ==> Concerns(op, op.executionId);
  }

  /** In every run, whatever its workers do, all receipts are in shape throughout if and only if every recording and
      every completion meets its guard. */
  lemma {:induction false} ShapesHoldIff(states: seq<Db>, ops: seq<Op>, n: nat)
    requires Run(states, ops) && states[0] == EMPTY && n <= |ops|
    ensures (forall i :: 0 <= i <= n ==> ShapesOk(states[i])) <==> (forall i :: 0 <= i < n ==> OpGuard(states[i], ops[i]))
  {
    hide Inv, Apply, Enabled, ShapesOk, OpGuard;
    if n == 0 {
      NoShapes();
    } else {
      ShapesHoldIff(states, ops, n - 1);
      InvariantOverRuns(states, ops, n - 1);
      if ShapesOk(states[n - 1]) {
        StepKeepsShapesIff(states[n - 1], ops[n - 1]);
      }
      assert (forall i :: 0 <= i <= n ==> ShapesOk(states[i])) <==> (forall i :: 0 <= i <= n - 1 ==> ShapesOk(states[i])) && ShapesOk(states[n]);
      assert (forall i :: 0 <= i < n ==> OpGuard(states[i], ops[i])) <==> (forall i :: 0 <= i < n - 1 ==> OpGuard(states[i], ops[i])) && OpGuard(states[n - 1], ops[n - 1]);
    }
  }

  lemma NoShapes()
    ensures ShapesOk(EMPTY)
  {
  }

  /** The same for one move of a worker: it keeps all receipts in shape exactly if its transaction meets the guard. */
  lemma MoveKeepsShapesIff(w: World, m: Move)
    requires CanMove(w, m) && WorldInv(w) && ShapesOk(w.db)
    ensures ShapesOk(DbAfter(w, m)) <==> OpOf(w, m).None? || OpGuard(w.db, OpOf(w, m).value)
  {
    hide Inv, ThreadsOk, CallsOk, EffectsOk, ReportsOk, JobsOk, Apply, Enabled, CanMove, OpOf, ShapesOk, OpGuard;
    if OpOf(w, m).Some? {
      DbStep(w, m);
      StepKeepsShapesIff(w.db, OpOf(w, m).value);
    }
  }

  // ----- respectful moves -----

  lemma FinisherKnows(w: World, c: Claim, now: Time)
    requires ShapeInv(w) && c in w.threads && Genuine(w.db, c) && HoldsLease(w.db.executions, c, now)
    ensures w.threads[c].At? && w.threads[c].index == |c.actions| ==> DoneUpTo(Statuses(w.db, c.executionId), |Statuses(w.db, c.executionId)|)
    ensures w.threads[c].Refusing? ==> exists n :: FailedAt(Statuses(w.db, c.executionId), n)
  {
    hide ShapesOk, DoneUpTo, FailedAt;
    assert Current(w.db, c);
  }

  /** A worker with the current claim meets every guard. */
  lemma RespectfulMovesMeetGuards(w: World, m: Move)
    requires CanMove(w, m) && RespectsLease(w, m) && WorldInv(w) && ShapeInv(w)
    ensures OpOf(w, m).None? || OpGuard(w.db, OpOf(w, m).value)
  {
    hide WorldInv, Statuses, DoneUpTo, FailedAt, OpenAt, ShapeOk, AdvanceSchedule, EndAttempt, PickedRows, MatchedRows,
         Genuine, IsLeasedTo;
    if m.Record? {
      RecorderIsOpen(w, m);
    } else if m.Finish? && HoldsLease(w.db.executions, m.claim, m.now) {
      FinisherKnows(w, m.claim, m.now);
    }
  }

  // ----- workers -----

  lemma PlaceOfOther(w: World, m: Move, c: Claim)
    requires CanMove(w, m) && RespectsLease(w, m) && WorldInv(w) && ShapeInv(w)
    requires c in w.threads && Current(w.db, c) && c.executionId in DbAfter(w, m).executions
    requires m.Record? ==> m.claim != c
    ensures Statuses(DbAfter(w, m), c.executionId) == Statuses(w.db, c.executionId)
  {
    hide Inv, ThreadsOk, CallsOk, EffectsOk, ReportsOk, JobsOk, Apply, Enabled, Genuine, Statuses, ShapeOk, PlaceOk;
    if OpOf(w, m).Some? {
      DbStep(w, m);
      StatusesStep(w.db, OpOf(w, m).value, c.executionId);
      if m.Record? && m.claim.executionId == c.executionId {
        OneCurrentClaim(w, m.claim, c);
      }
    }
  }

  lemma RecorderMovesOn(w: World, m: Move)
    requires CanMove(w, m) && m.Record? && RespectsLease(w, m) && WorldInv(w) && ShapeInv(w)
    requires m.claim.executionId in DbAfter(w, m).executions
    ensures PlaceOk(Statuses(DbAfter(w, m), m.claim.executionId), PlaceAfter(w, m, m.claim))
  {
    hide Inv, ThreadsOk, CallsOk, EffectsOk, ReportsOk, JobsOk, Apply, Enabled, Genuine, Statuses, ShapeOk;
    RecorderIsOpen(w, m);
    if OpOf(w, m).Some? {
      DbStep(w, m);
      StatusesStep(w.db, OpOf(w, m).value, m.claim.executionId);
      assert FailedAt(Recorded(OpOf(w, m).value, m.claim.executionId, Statuses(w.db, m.claim.executionId)), w.threads[m.claim].index)
             || w.threads[m.claim].answer.Answered?;
    }
  }

  lemma FewActions(db: Db, c: Claim)
    requires Genuine(db, c)
    requires Inv(db)
    ensures |c.actions| <= I32_MAX
  {
    hide References, Ledger, DispatchKeys, TriggersOk, IntakeOk, Leases, ReceiptsOk, CommandsOk, NamesOk, RulesValid, ValidAction;
    assert SnapshotValid(db.triggers, db.executions[c.executionId]);
  }

  lemma ReaderFacts(w: World, c: Claim)
    requires c in w.threads && w.threads[c].At? && w.threads[c].index < |c.actions| && WorldInv(w)
    ensures w.threads[c].index <= I32_MAX && (c.executionId, w.threads[c].index) in w.db.receipts
    ensures c.executionId in w.db.executions && w.db.executions[c.executionId].actions == c.actions
  {
    hide Inv, CallsOk, EffectsOk, ReportsOk, JobsOk, ReceiptFor;
    assert ThreadOk(w.db, w.applied, c, w.threads[c]);
    FewActions(w.db, c);
    InvariantReceipts(w.db);
  }

  lemma ReaderMovesOn(w: World, m: Move)
    requires CanMove(w, m) && m.ReadReceipt? && Current(w.db, m.claim) && WorldInv(w) && ShapeInv(w)
    ensures PlaceOk(Statuses(w.db, m.claim.executionId), PlaceAfter(w, m, m.claim))
  {
    hide WorldInv, ShapeOk, Genuine;
    var c := m.claim;
    ReaderFacts(w, c);
    assert PlaceOk(Statuses(w.db, c.executionId), w.threads[c]);
  }

  lemma PlaceStep(w: World, m: Move, c: Claim)
    requires CanMove(w, m) && RespectsLease(w, m) && WorldInv(w) && ShapeInv(w) && !m.Claiming?
    requires c in w.threads && Current(w.db, c) && c.executionId in DbAfter(w, m).executions
    ensures PlaceOk(Statuses(DbAfter(w, m), c.executionId), PlaceAfter(w, m, c))
  {
    hide WorldInv, Apply, Enabled, Genuine, Statuses, ShapeOk, DoneUpTo, FailedAt;
    assert PlaceOk(Statuses(w.db, c.executionId), w.threads[c]);
    if m.Record? && m.claim == c {
      RecorderMovesOn(w, m);
    } else {
      PlaceOfOther(w, m, c);
      if m.ReadReceipt? && m.claim == c {
        ReaderMovesOn(w, m);
      }
    }
  }

  lemma CurrentThreadBefore(w: World, m: Move, c: Claim)
    requires CanMove(w, m) && WorldInv(w) && c in w.threads && Current(DbAfter(w, m), c)
    ensures Current(w.db, c)
  {
    hide Inv, CallsOk, EffectsOk, ReportsOk, JobsOk, Apply, Enabled, Genuine, CanMove, OpOf, Current;
    assert ThreadOk(w.db, w.applied, c, w.threads[c]);
    DbStep(w, m);
    if OpOf(w, m).Some? {
      CurrentBefore(w.db, OpOf(w, m).value, c);
    }
  }

  lemma ThreadKeepsShape(w: World, m: Move, c: Claim)
    requires CanMove(w, m) && RespectsLease(w, m) && WorldInv(w) && ShapeInv(w)
    requires c in ThreadsAfter(w, m) && Current(DbAfter(w, m), c)
    ensures PlaceOk(Statuses(DbAfter(w, m), c.executionId), ThreadsAfter(w, m)[c])
  {
    hide WorldInv, Apply, Genuine, Statuses, ShapeOk, PlaceAfter, NewClaims, MatchedRows, PickedRows, DbAfter;
    if c !in w.threads || (m.Claiming? && c in NewClaims(w.db, m.op)) {
      assert ThreadsAfter(w, m)[c] == At(0);
    } else {
      CurrentThreadBefore(w, m, c);
      if m.Claiming? {
        PlaceOfOther(w, m, c);
      } else {
        PlaceStep(w, m, c);
      }
    }
  }

  lemma ShapeStep(w: World, m: Move)
    requires CanMove(w, m) && RespectsLease(w, m) && WorldInv(w) && ShapeInv(w)
    ensures ShapeInv(After(w, m))
  {
    hide WorldInv, CanMove, RespectsLease, ShapesOk, PlaceOk, DbAfter, ThreadsAfter, OpOf, OpGuard;
    var after := After(w, m);
    RespectfulMovesMeetGuards(w, m);
    MoveKeepsShapesIff(w, m);
    forall c | c in after.threads && Current(after.db, c) ensures PlaceOk(Statuses(after.db, c.executionId), after.threads[c]) {
      ThreadKeepsShape(w, m, c);
    }
  }

  lemma {:induction false} ShapeOverRuns(ws: seq<World>, ms: seq<Move>, i: nat)
    requires RespectfulRun(ws, ms) && i < |ws|
    ensures ShapeInv(ws[i])
  {
    hide WorldInv, CanMove, After, ShapeInv, RespectsLease;
    if i == 0 {
      NoShapeAtStart();
    } else {
      ShapeOverRuns(ws, ms, i - 1);
      WorldInvariantOverRuns(ws, ms, i - 1);
      ShapeStep(ws[i - 1], ms[i - 1]);
    }
  }

  lemma NoShapeAtStart()
    ensures ShapeInv(START)
  {
  }

  /** In a lease-respecting run receipts read succeeded up to some action, then at most one failed, then pending;
      an execution succeeds only with all of them succeeded, and fails only at exactly one failed action. */
  lemma ReceiptsKeepShape(ws: seq<World>, ms: seq<Move>, i: nat, e: string) returns (n: nat)
    requires RespectfulRun(ws, ms) && i < |ws| && e in ws[i].db.executions
    ensures n <= |ws[i].db.executions[e].actions|
    ensures forall j :: 0 <= j < |ws[i].db.executions[e].actions| ==> (e, j) in ws[i].db.receipts
    ensures forall j :: 0 <= j < n ==> ws[i].db.receipts[(e, j)].status.ActionSucceeded?
    ensures forall j :: n < j < |ws[i].db.executions[e].actions| ==> ws[i].db.receipts[(e, j)].status.ActionPending?
    ensures ws[i].db.executions[e].status.Succeeded? ==> n == |ws[i].db.executions[e].actions|
    ensures ws[i].db.executions[e].status.Failed? ==>
              n < |ws[i].db.executions[e].actions| && ws[i].db.receipts[(e, n)].status.ActionFailed?
  {
    hide CanMove, After, RespectsLease, Inv, ThreadsOk, CallsOk, EffectsOk, ReportsOk, JobsOk, RespectfulRun, ReceiptFor;
    ShapeOverRuns(ws, ms, i);
    RunWorldInv(ws, ms, i);
    InvariantReceipts(ws[i].db);
    var s := Statuses(ws[i].db, e);
    assert ShapeOk(ws[i].db.executions[e], s);
    var k :| OpenAt(s, k);
    n := k;
    forall j | 0 <= j < |s| ensures (e, j) in ws[i].db.receipts && s[j] == ws[i].db.receipts[(e, j)].status {
    }
  }

  lemma RunWorldInv(ws: seq<World>, ms: seq<Move>, i: nat)
    requires RespectfulRun(ws, ms) && i < |ws|
    ensures WorldInv(ws[i])
  {
    hide CanMove, After, RespectsLease, WorldInv;
    WorldInvariantOverRuns(ws, ms, i);
  }

  lemma SucceededStays(w: World, m: Move, e: string, n: nat)
    requires CanMove(w, m) && RespectsLease(w, m) && WorldInv(w) && ShapeInv(w)
    requires e in w.db.executions && n < |w.db.executions[e].actions| && Statuses(w.db, e)[n].ActionSucceeded?
    ensures e in DbAfter(w, m).executions && n < |DbAfter(w, m).executions[e].actions| && Statuses(DbAfter(w, m), e)[n].ActionSucceeded?
  {
    hide Inv, ThreadsOk, CallsOk, EffectsOk, ReportsOk, JobsOk, Apply, Enabled, Genuine, Statuses, ShapeOk, RulesLater,
         AttemptsLater, ReceiptsLater, DispatchesLater, Kept;
    DbStep(w, m);
    assert e in DbAfter(w, m).executions;
    if OpOf(w, m).Some? {
      StatusesStep(w.db, OpOf(w, m).value, e);
      if m.Record? {
        RecorderIsOpen(w, m);
      }
    }
  }

  lemma {:induction false} SucceededStaysOverRuns(ws: seq<World>, ms: seq<Move>, i: nat, j: nat, e: string, n: nat)
    requires RespectfulRun(ws, ms) && i <= j < |ws|
    requires e in ws[i].db.executions && n < |ws[i].db.executions[e].actions| && Statuses(ws[i].db, e)[n].ActionSucceeded?
    ensures e in ws[j].db.executions && n < |ws[j].db.executions[e].actions| && Statuses(ws[j].db, e)[n].ActionSucceeded?
    decreases j - i
  {
    hide CanMove, RespectsLease, WorldInv, ShapeInv, Statuses, DbAfter;
    if i < j {
      SucceededStaysOverRuns(ws, ms, i, j - 1, e, n);
      RunWorldInv(ws, ms, j - 1);
      ShapeOverRuns(ws, ms, j - 1);
      SucceededStays(ws[j - 1], ms[j - 1], e, n);
    }
  }

  /** Once an action's receipt says succeeded, no retry calls its dependency again. */
  lemma SucceededIsNeverCalledAgain(ws: seq<World>, ms: seq<Move>, i: nat, j: nat, e: string, n: nat)
    requires RespectfulRun(ws, ms) && i <= j < |ms| && Calls(ws[j], ms[j])
    requires (e, n) in ws[i].db.receipts && ws[i].db.receipts[(e, n)].status.ActionSucceeded?
    ensures ms[j].claim.executionId != e || ws[j].threads[ms[j].claim].index != n
  {
    hide Inv, ThreadsOk, CallsOk, EffectsOk, ReportsOk, JobsOk, After, Resolve, Genuine, ShapeOk, ReceiptFor;
    RunWorldInv(ws, ms, i);
    InvariantReceipts(ws[i].db);
    assert ReceiptFor(ws[i].db.executions[e], (e, n), ws[i].db.receipts[(e, n)]);
    ReceiptIndex(ws[i].db, (e, n));
    assert Statuses(ws[i].db, e)[n].ActionSucceeded?;
    SucceededStaysOverRuns(ws, ms, i, j, e, n);
    ShapeOverRuns(ws, ms, j);
    assert RespectsLease(ws[j], ms[j]);
  }

  lemma ReceiptIndex(db: Db, k: (string, int))
    requires k in db.receipts && ReceiptsOk(db.executions, db.receipts)
    ensures k.0 in db.executions && 0 <= k.1 < |db.executions[k.0].actions|
  {
    assert ReceiptFor(db.executions[k.0], k, db.receipts[k]);
  }

  /** Without that discipline a receipt can be overwritten: whoever the execution now belongs to, and even after it
      succeeded, a worker that heard a rejection can still record it. */
  lemma ReceiptsAreNotFenced(w: World, c: Claim)
    requires c in w.threads && w.threads[c].Heard? && w.threads[c].answer.Rejected?
    requires WorldInv(w)
    ensures var k := (c.executionId, w.threads[c].index);
            && CanMove(w, Record(c)) && k in w.db.receipts
            && After(w, Record(c)).db
               == w.db.(receipts := w.db.receipts[k := w.db.receipts[k].(status := ActionFailed, response := None, lastFailure := Some(w.threads[c].answer.detail))])
  {
    hide Inv, CallsOk, EffectsOk, ReportsOk, JobsOk, ReceiptFor;
    assert ThreadOk(w.db, w.applied, c, w.threads[c]);
    InvariantReceipts(w.db);
    assert (c.executionId, w.threads[c].index) in w.db.receipts;
  }
}
