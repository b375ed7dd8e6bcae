/** Retry safety: whatever workers do, and however often they die, each action takes effect at most once,
    and an execution that succeeded had all of its actions applied. */
module Safety {
  import opened Results
  import opened Schedule
  import opened Rules
  import opened Payloads
  import opened Targets
  import opened Keys
  import opened Tables
  import opened Transactions
  import opened Invariants
  import opened Preservation
  import opened Runs
  import opened Frames
  import opened History
  import opened Effects
  import opened Dispatching
  import opened Workers

  ghost predicate AppliedUpTo(applied: set<Key>, executionId: string, n: int) {
    forall i :: 0 <= i < n ==> ActionKey(executionId, i) in applied
  }

  /** A worker's claim is one that was handed to it, and it has passed only actions that were applied. */
  ghost predicate ThreadOk(db: Db, applied: set<Key>, c: Claim, place: Place) {
    && Genuine(db, c)
    && (c.executionId, c.attempt) in db.attempts && db.attempts[(c.executionId, c.attempt)].worker == c.worker
    && match place
       case At(i) => i <= |c.actions| && AppliedUpTo(applied, c.executionId, i)
       case Holding(i, key) => i < |c.actions| && AppliedUpTo(applied, c.executionId, i) && key == ActionKey(c.executionId, i)
       case Heard(i, answer) =>
         && i < |c.actions| && AppliedUpTo(applied, c.executionId, i)
         && (answer.Answered? ==> ActionKey(c.executionId, i) in applied)
       case _ => true
  }

  ghost predicate ThreadsOk(db: Db, applied: set<Key>, threads: map<Claim, Place>) {
    forall c :: c in threads ==> ThreadOk(db, applied, c, threads[c])
  }

  /** What the tables report as succeeded was applied. */
  ghost predicate ReportsOk(db: Db, applied: set<Key>) {
    && (forall k :: k in db.receipts && db.receipts[k].status.ActionSucceeded? ==> db.receipts[k].idempotencyKey in applied)
    && (forall e :: e in db.executions && db.executions[e].status.Succeeded? ==> AppliedUpTo(applied, e, |db.executions[e].actions|))
  }

  /** Every call carried the key intake stored for its action. */
  ghost predicate CallsOk(db: Db, calls: set<Call>) {
    forall call :: call in calls ==>
      (call.executionId, call.index) in db.receipts && call.key == db.receipts[(call.executionId, call.index)].idempotencyKey
  }

  ghost predicate EffectsOk(applied: set<Key>, effects: seq<(string, int)>) {
    && (forall e, n :: ActionKey(e, n) in applied <==> (e, n) in effects)
    && (forall i, j :: 0 <= i < j < |effects| ==> effects[i] != effects[j])
  }

  /** Flushes hold, and Jobs was given, only payloads of stored dispatches, and an enqueued one was given. */
  ghost predicate JobsOk(dispatches: Dispatches, listed: set<ScheduleDispatch>, jobs: set<ScheduleDispatch>) {
    && jobs <= listed
    && (forall d :: d in listed ==> SlotKey(d) in dispatches && d == JobOf(SlotKey(d), dispatches[SlotKey(d)]))
    && (forall k :: k in dispatches && dispatches[k].state.Enqueued? ==> JobOf(k, dispatches[k]) in jobs)
  }

  ghost predicate WorldInv(w: World) {
    && Inv(w.db)
    && ThreadsOk(w.db, w.applied, w.threads)
    && ReportsOk(w.db, w.applied)
    && CallsOk(w.db, w.calls)
    && EffectsOk(w.applied, w.effects)
    && JobsOk(w.db.dispatches, w.listed, w.jobs)
  }

  // ----- the database -----

  lemma DbStep(w: World, m: Move)
    requires CanMove(w, m) && Inv(w.db)
    ensures Inv(DbAfter(w, m)) && Later(w.db, DbAfter(w, m))
    ensures OpOf(w, m).Some? ==> Enabled(w.db, OpOf(w, m).value)
  {
    hide Inv, Later, Apply, Enabled, Genuine;
    match OpOf(w, m)
    case None => LaterIsReflexive(w.db);
    case Some(op) =>
      OpIsEnabled(w, m);
      StepKeepsInvariant(w.db, op);
      StepIsLater(w.db, op);
  }

  lemma OpIsEnabled(w: World, m: Move)
    requires CanMove(w, m) && OpOf(w, m).Some?
    ensures Enabled(w.db, OpOf(w, m).value)
  {
    hide PickedRows, MatchedRows, Genuine;
  }

  lemma GenuineStays(a: Db, b: Db, c: Claim)
    requires Genuine(a, c) && Later(a, b)
    ensures Genuine(b, c)
  {
    assert ExecutionLater(a.executions[c.executionId], b.executions[c.executionId]);
  }

  // ----- what is reported was applied -----

  /** What the worker behind a transaction must know for the report it writes. */
  ghost predicate Justified(op: Op, applied: set<Key>) {
    && (op.CompleteActionOp? && op.succeeded ==> ActionKey(op.executionId, op.index) in applied)
    && (op.CompleteOp? && op.succeeded ==> AppliedUpTo(applied, op.claim.executionId, |op.claim.actions|))
  }

  lemma ReceiptReport(db: Db, op: Op, applied: set<Key>, k: (string, int))
    requires Enabled(db, op) && Justified(op, applied)
    requires k in Apply(db, op).receipts && Apply(db, op).receipts[k].status.ActionSucceeded?
    requires k in db.receipts && db.receipts[k].status.ActionSucceeded? ==> db.receipts[k].idempotencyKey in applied
    requires Inv(db)
    ensures Apply(db, op).receipts[k].idempotencyKey in applied
  {
    hide Inv, Apply, Enabled;
    StepMovesReceipt(db, op, k);
    StepIsLater(db, op);
    StepKeepsInvariant(db, op);
    InvariantReceipts(db);
    InvariantReceipts(Apply(db, op));
    var after := Apply(db, op);
    assert ReceiptFor(after.executions[k.0], k, after.receipts[k]);
  }

  lemma ExecutionReport(db: Db, op: Op, applied: set<Key>, e: string)
    requires Enabled(db, op) && Justified(op, applied)
    requires e in Apply(db, op).executions && Apply(db, op).executions[e].status.Succeeded?
    requires e in db.executions && db.executions[e].status.Succeeded? ==> AppliedUpTo(applied, e, |db.executions[e].actions|)
    requires Inv(db)
    ensures AppliedUpTo(applied, e, |Apply(db, op).executions[e].actions|)
  {
    hide Inv, Apply, AppliedUpTo, PickedRows, MatchedRows, HoldsLease, RulesLater, AttemptsLater, ReceiptsLater,
         DispatchesLater, Kept;
    StepMovesExecution(db, op, e);
    StepIsLater(db, op);
    assert e in db.executions && ExecutionLater(db.executions[e], Apply(db, op).executions[e]);
  }

  lemma ReportsStep(db: Db, op: Op, applied: set<Key>)
    requires Enabled(db, op) && Justified(op, applied) && ReportsOk(db, applied)
    requires Inv(db)
    ensures ReportsOk(Apply(db, op), applied)
  {
    hide Inv, Apply, Enabled, Justified, AppliedUpTo;
    var after := Apply(db, op);
    forall k | k in after.receipts && after.receipts[k].status.ActionSucceeded? ensures after.receipts[k].idempotencyKey in applied {
      ReceiptReport(db, op, applied, k);
    }
    forall e | e in after.executions && after.executions[e].status.Succeeded?
      ensures AppliedUpTo(applied, e, |after.executions[e].actions|)
    {
      ExecutionReport(db, op, applied, e);
    }
  }

  lemma ReportsGrow(db: Db, a: set<Key>, b: set<Key>)
    requires ReportsOk(db, a) && a <= b
    ensures ReportsOk(db, b)
  {
  }

  lemma MoveIsJustified(w: World, m: Move)
    requires CanMove(w, m) && OpOf(w, m).Some? && ThreadsOk(w.db, w.applied, w.threads)
    ensures Justified(OpOf(w, m).value, w.applied)
  {
    hide Enabled, Genuine;
    if m.Record? || m.Finish? {
      assert ThreadOk(w.db, w.applied, m.claim, w.threads[m.claim]);
    }
  }

  // ----- workers -----

  /** The attempt a claim names keeps its worker. */
  lemma OldThread(a: Db, b: Db, small: set<Key>, large: set<Key>, c: Claim, place: Place)
    requires ThreadOk(a, small, c, place) && Later(a, b) && small <= large
    ensures ThreadOk(b, large, c, place)
  {
    hide Genuine, RulesLater, ExecutionsLater, ReceiptsLater, DispatchesLater, Kept;
    GenuineStays(a, b, c);
  }

  lemma ReadsStoredKey(w: World, c: Claim)
    requires c in w.threads && w.threads[c].At? && w.threads[c].index < |c.actions| && ThreadOk(w.db, w.applied, c, w.threads[c])
    requires Inv(w.db)
    ensures var k := (c.executionId, w.threads[c].index); k in w.db.receipts && w.db.receipts[k].idempotencyKey == ActionKey(k.0, k.1)
  {
    hide Inv, ActionKey;
    InvariantReceipts(w.db);
    var k := (c.executionId, w.threads[c].index);
    assert k in w.db.receipts && ReceiptFor(w.db.executions[k.0], k, w.db.receipts[k]);
  }

  /** A worker that moves on knows what it has to know at its next place. */
  lemma ThreadStep(w: World, m: Move, c: Claim)
    requires CanMove(w, m) && !m.Claiming? && c in w.threads && WorldInv(w)
    ensures ThreadOk(w.db, After(w, m).applied, c, PlaceAfter(w, m, c))
  {
    hide Inv, Apply, Enabled, Genuine, ReportsOk, CallsOk, EffectsOk, JobsOk, ActionKey, Resolve, PayloadJson, DbAfter;
    assert ThreadOk(w.db, w.applied, c, w.threads[c]);
    if m.ReadReceipt? && m.claim == c {
      ReadsStoredKey(w, c);
      SucceededReceiptApplied(w, (c.executionId, w.threads[c].index));
    }
  }

  lemma SucceededReceiptApplied(w: World, k: (string, int))
    requires WorldInv(w) && k in w.db.receipts
    ensures w.db.receipts[k].status.ActionSucceeded? ==> w.db.receipts[k].idempotencyKey in w.applied
  {
    hide Inv, ThreadsOk, CallsOk, EffectsOk, JobsOk;
  }

  lemma NewThread(db: Db, op: Op, applied: set<Key>, c: Claim)
    requires op.ClaimOp? && Enabled(db, op) && c in NewClaims(db, op)
    requires Inv(db)
    ensures ThreadOk(Apply(db, op), applied, c, At(0))
  {
    hide Inv, ClaimAll;
    var leaseUntil := op.now + op.leaseSeconds * SECOND;
    var i :| 0 <= i < |op.picked| && c == ClaimOf(db, op.picked[i], op.worker);
    ClaimedEach(db, op.picked, |op.picked|, op.worker, leaseUntil, i);
    ClaimAllFrame(db, op.picked, |op.picked|, op.worker, leaseUntil);
    NoNegativeAttempts(db, op.picked[i]);
  }

  lemma NoNegativeAttempts(db: Db, e: string)
    requires e in db.executions
    requires Inv(db)
    ensures db.executions[e].attempts >= 0
  {
    hide References, Ledger, DispatchKeys, TriggersOk, IntakeOk, ReceiptsOk, CommandsOk, NamesOk, RulesValid, SnapshotsValid;
    assert LeaseOk(e, db.executions[e], db.attempts);
  }

  lemma ThreadsStep(w: World, m: Move)
    requires CanMove(w, m) && WorldInv(w)
    ensures ThreadsOk(After(w, m).db, After(w, m).applied, After(w, m).threads)
  {
    hide Inv, Later, Apply, Enabled, Genuine, ReportsOk, CallsOk, EffectsOk, JobsOk, ThreadOk, Resolve, PlaceAfter, OpOf,
         NewClaims;
    var after := After(w, m);
    DbStep(w, m);
    forall c | c in after.threads ensures ThreadOk(after.db, after.applied, c, after.threads[c]) {
      ThreadAfter(w, m, c);
    }
  }

  lemma ThreadAfter(w: World, m: Move, c: Claim)
    requires CanMove(w, m) && WorldInv(w) && c in ThreadsAfter(w, m) && Later(w.db, DbAfter(w, m))
    ensures ThreadOk(DbAfter(w, m), After(w, m).applied, c, ThreadsAfter(w, m)[c])
  {
    hide Inv, Later, Apply, Genuine, ReportsOk, CallsOk, EffectsOk, JobsOk, ThreadOk, Resolve, PlaceAfter, NewClaims,
         PickedRows, MatchedRows, Calls;
    if m.Claiming? && c in NewClaims(w.db, m.op) {
      NewThread(w.db, m.op, After(w, m).applied, c);
    } else if m.Claiming? {
      OldThread(w.db, DbAfter(w, m), w.applied, After(w, m).applied, c, w.threads[c]);
    } else {
      ThreadStep(w, m, c);
      OldThread(w.db, DbAfter(w, m), After(w, m).applied, After(w, m).applied, c, PlaceAfter(w, m, c));
    }
  }

  // ----- calls and effects -----

  lemma CallsStep(w: World, m: Move)
    requires CanMove(w, m) && WorldInv(w)
    ensures CallsOk(After(w, m).db, After(w, m).calls) && EffectsOk(After(w, m).applied, After(w, m).effects)
  {
    hide Inv, ReportsOk, JobsOk, EffectsOk, Apply, Enabled, Resolve, ActionKey, Genuine, OpOf, PlaceAfter, NewClaims,
         RulesLater, ExecutionsLater, AttemptsLater, DispatchesLater, Kept;
    DbStep(w, m);
    if Calls(w, m) {
      assert ThreadOk(w.db, w.applied, m.claim, w.threads[m.claim]);
      HoldsStoredKey(w, m.claim);
    }
    if TakesEffect(w, m) {
      var request := RequestOf(w, m);
      StoredKey(w.db, (request.executionId, request.index));
      EffectAdded(w.applied, w.effects, request.executionId, request.index);
    }
  }

  lemma EffectAdded(applied: set<Key>, effects: seq<(string, int)>, executionId: string, index: int)
    requires EffectsOk(applied, effects) && ActionKey(executionId, index) !in applied
    ensures EffectsOk(applied + {ActionKey(executionId, index)}, effects + [(executionId, index)])
  {
    hide ActionKey;
    forall e, n ensures ActionKey(e, n) in applied + {ActionKey(executionId, index)} <==> (e, n) in effects + [(executionId, index)] {
      KeysAreInjective(e, n, executionId, index);
    }
  }

  lemma HoldsStoredKey(w: World, c: Claim)
    requires c in w.threads && w.threads[c].Holding? && ThreadOk(w.db, w.applied, c, w.threads[c])
    requires Inv(w.db)
    ensures var k := (c.executionId, w.threads[c].index); k in w.db.receipts && w.db.receipts[k].idempotencyKey == ActionKey(k.0, k.1)
  {
    hide Inv, ActionKey;
    InvariantReceipts(w.db);
    var k := (c.executionId, w.threads[c].index);
    assert k in w.db.receipts && ReceiptFor(w.db.executions[k.0], k, w.db.receipts[k]);
  }

  // ----- jobs -----

  lemma JobsStep(w: World, m: Move)
    requires CanMove(w, m) && WorldInv(w)
    ensures JobsOk(After(w, m).db.dispatches, After(w, m).listed, After(w, m).jobs)
  {
    hide Inv, ReportsOk, CallsOk, EffectsOk, ThreadsOk, Apply, Enabled, Resolve, Genuine, PlaceAfter, NewClaims, RulesLater,
         ExecutionsLater, AttemptsLater, ReceiptsLater, Kept;
    DbStep(w, m);
    var after := After(w, m);
    forall k | k in after.db.dispatches && after.db.dispatches[k].state.Enqueued? ensures JobOf(k, after.db.dispatches[k]) in after.jobs {
      EnqueuedAfter(w, m, k);
    }
  }

  lemma EnqueuedAfter(w: World, m: Move, k: (string, Time))
    requires CanMove(w, m) && WorldInv(w)
    requires k in DbAfter(w, m).dispatches && DbAfter(w, m).dispatches[k].state.Enqueued?
    ensures JobOf(k, DbAfter(w, m).dispatches[k]) in w.jobs
  {
    hide Inv, ReportsOk, CallsOk, EffectsOk, ThreadsOk, Apply, Enabled, Resolve, Genuine, PlaceAfter, NewClaims, RulesLater,
         ExecutionsLater, AttemptsLater, ReceiptsLater, Kept;
    DbStep(w, m);
    if OpOf(w, m).Some? {
      StepMoves(w.db, OpOf(w, m).value, k);
    }
    assert k in w.db.dispatches && DispatchLater(w.db.dispatches[k], DbAfter(w, m).dispatches[k]);
  }

  // ----- every run -----

  lemma WorldStep(w: World, m: Move)
    requires CanMove(w, m) && WorldInv(w)
    ensures WorldInv(After(w, m))
  {
    hide Inv, Apply, Enabled, CanMove, CallsOk, EffectsOk, ThreadsOk, JobsOk, ReportsOk, PlaceAfter, OpOf, NewClaims,
         Resolve, Later, ThreadsAfter, Justified;
    DbStep(w, m);
    ThreadsStep(w, m);
    CallsStep(w, m);
    JobsStep(w, m);
    if OpOf(w, m).Some? {
      MoveIsJustified(w, m);
      ReportsStep(w.db, OpOf(w, m).value, w.applied);
    }
    ReportsGrow(DbAfter(w, m), w.applied, After(w, m).applied);
  }

  lemma WorldStart()
    ensures WorldInv(START)
  {
    EmptyDatabase();
  }

  lemma {:induction false} WorldInvariantOverRuns(ws: seq<World>, ms: seq<Move>, i: nat)
    requires WorldRun(ws, ms) && ws[0] == START && i < |ws|
    ensures WorldInv(ws[i])
  {
    hide WorldInv, CanMove, After;
    if i == 0 {
      WorldStart();
    } else {
      WorldInvariantOverRuns(ws, ms, i - 1);
      WorldStep(ws[i - 1], ms[i - 1]);
    }
  }

  /** Every call ever made for an action carries its one key, which no other action has. */
  lemma CallsCarryOneKey(ws: seq<World>, ms: seq<Move>, i: nat, j: nat, a: Call, b: Call)
    requires WorldRun(ws, ms) && ws[0] == START && i < |ws| && j < |ws| && a in ws[i].calls && b in ws[j].calls
    ensures a.key == b.key <==> a.executionId == b.executionId && a.index == b.index
    ensures (a.executionId, a.index) in ws[i].db.receipts
    ensures a.key == ws[i].db.receipts[(a.executionId, a.index)].idempotencyKey
  {
    hide CanMove, After, ThreadsOk, ReportsOk, EffectsOk, JobsOk, Inv;
    WorldInvariantOverRuns(ws, ms, i);
    WorldInvariantOverRuns(ws, ms, j);
    StoredKey(ws[i].db, (a.executionId, a.index));
    StoredKey(ws[j].db, (b.executionId, b.index));
    KeysAreInjective(a.executionId, a.index, b.executionId, b.index);
  }

  lemma StoredKey(db: Db, k: (string, int))
    requires k in db.receipts
    requires Inv(db)
    ensures db.receipts[k].idempotencyKey == ActionKey(k.0, k.1)
  {
    hide Inv, ActionKey;
    InvariantReceipts(db);
    assert ReceiptFor(db.executions[k.0], k, db.receipts[k]);
  }

  /** With a dependency that applies a key at most once, and has applied it when it answers, no action takes
      effect twice, and whatever the tables report as succeeded took effect. */
  lemma RetriesAreSafe(ws: seq<World>, ms: seq<Move>, i: nat)
    requires WorldRun(ws, ms) && ws[0] == START && i < |ws|
    ensures forall m, n :: 0 <= m < n < |ws[i].effects| ==> ws[i].effects[m] != ws[i].effects[n]
    ensures forall e, n :: e in ws[i].db.executions && ws[i].db.executions[e].status.Succeeded? && 0 <= n < |ws[i].db.executions[e].actions| ==> (e, n) in ws[i].effects
    ensures forall k :: k in ws[i].db.receipts && ws[i].db.receipts[k].status.ActionSucceeded? ==> k in ws[i].effects
  {
    hide CanMove, After, ThreadsOk, CallsOk, JobsOk, Inv, WorldRun, ActionKey;
    WorldInvariantOverRuns(ws, ms, i);
    forall k | k in ws[i].db.receipts && ws[i].db.receipts[k].status.ActionSucceeded? ensures k in ws[i].effects {
      StoredKey(ws[i].db, k);
      assert (k.0, k.1) in ws[i].effects;
    }
  }

  /** Jobs given for one slot are one job: same organization, key and payload. */
  lemma JobsOfSlotAgree(ws: seq<World>, ms: seq<Move>, i: nat, a: ScheduleDispatch, b: ScheduleDispatch)
    requires WorldRun(ws, ms) && ws[0] == START && i < |ws|
    requires a in ws[i].jobs && b in ws[i].jobs && SlotKey(a) == SlotKey(b)
    ensures a == b
  {
    hide CanMove, After, ThreadsOk, CallsOk, ReportsOk, EffectsOk, Inv, WorldRun;
    WorldInvariantOverRuns(ws, ms, i);
  }

  /** The slot a rule is armed at either waits for a flush to list it, or Jobs has its timer. */
  lemma ArmedSlotReachesJobs(ws: seq<World>, ms: seq<Move>, i: nat, r: string)
    requires WorldRun(ws, ms) && ws[0] == START && i < |ws|
    requires r in ws[i].db.rules && ws[i].db.rules[r].nextFireAt.Some?
    ensures var slot := (r, ws[i].db.rules[r].nextFireAt.value);
            && slot in ws[i].db.dispatches
            && (CanMove(ws[i], List(slot)) || JobOf(slot, ws[i].db.dispatches[slot]) in ws[i].jobs)
  {
    hide After, ThreadsOk, CallsOk, ReportsOk, EffectsOk, WorldRun, References, DispatchKeys, TriggersOk, IntakeOk, Leases,
         ReceiptsOk,
         CommandsOk, NamesOk, RulesValid, SnapshotsValid;
    WorldInvariantOverRuns(ws, ms, i);
  }

  /** A worker's claim is genuine in every later state, so finishing it is always possible. */
  lemma WorkersHoldGenuineClaims(ws: seq<World>, ms: seq<Move>, i: nat, c: Claim)
    requires WorldRun(ws, ms) && ws[0] == START && i < |ws| && c in ws[i].threads
    ensures Genuine(ws[i].db, c) && (c.executionId, c.attempt) in ws[i].db.attempts
    ensures ws[i].db.attempts[(c.executionId, c.attempt)].worker == c.worker
  {
    hide CanMove, After, Genuine, CallsOk, ReportsOk, EffectsOk, JobsOk, WorldRun, Inv;
    WorldInvariantOverRuns(ws, ms, i);
    assert ThreadOk(ws[i].db, ws[i].applied, c, ws[i].threads[c]);
  }
}
