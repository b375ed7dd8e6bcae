/** Runs with workers and Jobs are runs of the database, so everything proved of those holds here; and with
    Jobs delivering only what flushes gave it, an unedited schedule progresses. */
module Delivery {
  import opened Results
  import opened Schedule
  import opened Rules
  import opened Payloads
  import opened Targets
  import opened Keys
  import opened Tables
  import opened Transactions
  import opened Invariants
  import opened Runs
  import opened Frames
  import opened History
  import opened RuleSteps
  import opened Stalling
  import opened Progression
  import opened Recurrence
  import opened Workers
  import opened Safety

  /** `at[i]` is where world `i` stands in the run of the database. */
  ghost predicate Projects(ws: seq<World>, ms: seq<Move>, n: nat, states: seq<Db>, ops: seq<Op>, at: seq<nat>)
    requires WorldRun(ws, ms) && n < |ws|
  {
    && Run(states, ops) && |at| == n + 1 && at[0] == 0 && at[n] == |ops|
    && (forall i :: 0 <= i <= n ==> at[i] < |states| && states[at[i]] == ws[i].db)
    && (forall i :: 0 <= i < n ==> Advances(ws[i], ms[i], ops, at[i], at[i + 1]))
  }

  /** A move is one transaction of the run, or none. */
  ghost predicate Advances(w: World, m: Move, ops: seq<Op>, here: nat, next: nat)
    requires CanMove(w, m)
  {
    match OpOf(w, m)
    case None => next == here
    case Some(op) => next == here + 1 && here < |ops| && ops[here] == op
  }

  /** Every world run projects to a run of the database from empty tables. */
  lemma {:induction false} WorldRunsAreRuns(ws: seq<World>, ms: seq<Move>, n: nat) returns (states: seq<Db>, ops: seq<Op>,
                                            at: seq<nat>)
    requires WorldRun(ws, ms) && n < |ws| && ws[0] == START
    ensures Projects(ws, ms, n, states, ops, at) && states[0] == EMPTY
  {
    hide CanMove, Apply, Enabled, OpOf, WorldInv, After, Projects;
    if n == 0 {
      states, ops, at := [EMPTY], [], [0];
      NothingProjected(ws, ms);
    } else {
      states, ops, at := WorldRunsAreRuns(ws, ms, n - 1);
      WorldInvariantOverRuns(ws, ms, n - 1);
      states, ops, at := NextProjection(ws, ms, n - 1, states, ops, at);
    }
  }

  lemma NothingProjected(ws: seq<World>, ms: seq<Move>)
    requires WorldRun(ws, ms) && ws[0] == START
    ensures Projects(ws, ms, 0, [EMPTY], [], [0])
  {
  }

  lemma MoveDb(w: World, m: Move)
    requires CanMove(w, m) && WorldInv(w)
    ensures OpOf(w, m).None? ==> After(w, m).db == w.db
    ensures OpOf(w, m).Some? ==> Enabled(w.db, OpOf(w, m).value) && After(w, m).db == Apply(w.db, OpOf(w, m).value)
  {
    hide CanMove, Apply, Enabled, OpOf, WorldInv, Calls, TakesEffect, ThreadsAfter;
    InvariantPart(w);
    DbStep(w, m);
  }

  lemma RunExtends(states: seq<Db>, ops: seq<Op>, op: Op)
    requires Run(states, ops) && Enabled(states[|ops|], op)
    ensures Run(states + [Apply(states[|ops|], op)], ops + [op])
  {
    hide Apply, Enabled;
  }

  lemma NextProjection(ws: seq<World>, ms: seq<Move>, n: nat, states: seq<Db>, ops: seq<Op>, at: seq<nat>)
    returns (states': seq<Db>, ops': seq<Op>, at': seq<nat>)
    requires WorldRun(ws, ms) && n < |ms| && Projects(ws, ms, n, states, ops, at) && WorldInv(ws[n])
    ensures Projects(ws, ms, n + 1, states', ops', at') && states'[0] == states[0]
  {
    hide CanMove, Apply, Enabled, OpOf, WorldInv, After, Run;
    MoveDb(ws[n], ms[n]);
    RunLength(states, ops);
    match OpOf(ws[n], ms[n])
    case None =>
      states', ops', at' := states, ops, at + [|ops|];
    case Some(op) =>
      RunExtends(states, ops, op);
      states', ops', at' := states + [ws[n + 1].db], ops + [op], at + [|ops| + 1];
      forall i | 0 <= i < n ensures Advances(ws[i], ms[i], ops', at'[i], at'[i + 1]) {
        assert Advances(ws[i], ms[i], ops, at[i], at[i + 1]);
      }
  }

  lemma RunLength(states: seq<Db>, ops: seq<Op>)
    requires Run(states, ops)
    ensures |states| == |ops| + 1
  {
    hide Apply, Enabled;
  }

  lemma InvariantPart(w: World)
    requires WorldInv(w)
    ensures Inv(w.db) && JobsOk(w.db.dispatches, w.listed, w.jobs)
  {
  }

  lemma {:induction false} PositionsAreOrdered(ws: seq<World>, ms: seq<Move>, n: nat, states: seq<Db>, ops: seq<Op>,
                                               at: seq<nat>, i: nat, j: nat)
    requires WorldRun(ws, ms) && n < |ws| && Projects(ws, ms, n, states, ops, at) && i <= j <= n
    ensures at[i] <= at[j]
    decreases j - i
  {
    hide CanMove, Apply, Enabled, OpOf, Run, After;
    if i < j {
      PositionsAreOrdered(ws, ms, n, states, ops, at, i, j - 1);
      assert Advances(ws[j - 1], ms[j - 1], ops, at[j - 1], at[j]);
    }
  }

  /** Every transaction of the projected run is that of some move. */
  lemma {:induction false} MoveOfStep(ws: seq<World>, ms: seq<Move>, n: nat, states: seq<Db>, ops: seq<Op>, at: seq<nat>,
                                      j: nat, step: nat) returns (i: nat)
    requires WorldRun(ws, ms) && n < |ws| && Projects(ws, ms, n, states, ops, at) && j <= n && step < at[j]
    ensures i < j && at[i] == step && OpOf(ws[i], ms[i]) == Some(ops[step])
  {
    hide CanMove, Apply, Enabled, OpOf, Run, After;
    assert Advances(ws[j - 1], ms[j - 1], ops, at[j - 1], at[j]);
    if step < at[j - 1] {
      i := MoveOfStep(ws, ms, n, states, ops, at, j - 1, step);
    } else {
      i := j - 1;
    }
  }

  /** Timers of the rule are deliveries of jobs that a flush enqueued. */
  ghost predicate DeliversJobs(w: World, m: Move, r: string) {
    m.Handle? && m.op.ReceiveTimerOp? && m.op.ruleId == r ==>
      ScheduleDispatch(r, m.op.organizationId, m.op.scheduledFor, m.op.dedupeKey) in w.jobs
  }

  lemma DeliveriesAreFromJobs(w: World, m: Move, r: string)
    requires CanMove(w, m) && DeliversJobs(w, m, r) && OpOf(w, m).Some? && JobsOk(w.db.dispatches, w.listed, w.jobs)
    ensures FromJobs(w.db, OpOf(w, m).value, r)
  {
    hide Enabled, Genuine;
    if m.Handle? && m.op.ReceiveTimerOp? && m.op.ruleId == r {
      var d := ScheduleDispatch(r, m.op.organizationId, m.op.scheduledFor, m.op.dedupeKey);
      assert d in w.listed && SlotKey(d) == (r, m.op.scheduledFor);
    }
  }

  /** With workers, retries and Jobs in the picture: with nothing left ahead, an unedited schedule whose timers are
      deliveries of enqueued jobs is stuck later if and only if it is stuck now, and else fires its slots one after the
      other. */
  lemma SchedulesProgressInWorldRuns(ws: seq<World>, ms: seq<Move>, i: nat, j: nat, r: string)
    requires WorldRun(ws, ms) && ws[0] == START && i <= j < |ws|
    requires r in ws[i].db.rules && ws[i].db.rules[r].Armable() && ws[i].db.rules[r].nextFireAt.Some? && Clear(ws[i].db, r)
    requires r in ws[j].db.rules && ws[j].db.rules[r].revision == ws[i].db.rules[r].revision
    requires forall n :: i <= n < j ==> DeliversJobs(ws[n], ms[n], r)
    ensures Stuck(ws[j].db, r) <==> Stuck(ws[i].db, r)
    ensures !Stuck(ws[i].db, r) ==> Progresses(ws[j].db, r, ws[i].db.rules[r].nextFireAt.value)
  {
    hide CanMove, Apply, Enabled, OpOf, Run, After, Progresses, FromJobs, DeliversJobs, WorldInv, JobsOk, Inv, Clear, Stuck;
    var states, ops, at := WorldRunsAreRuns(ws, ms, j);
    EmptyDatabase();
    PositionsAreOrdered(ws, ms, j, states, ops, at, i, j);
    forall step | at[i] <= step < at[j] ensures FromJobs(states[step], ops[step], r) {
      var n := MoveOfStep(ws, ms, j, states, ops, at, j, step);
      if n < i {
        PositionsAreOrdered(ws, ms, j, states, ops, at, n + 1, i);
      }
      WorldInvariantOverRuns(ws, ms, n);
      InvariantPart(ws[n]);
      DeliveriesAreFromJobs(ws[n], ms[n], r);
    }
    StuckIffStuckFirst(states, ops, at[i], at[j], r);
    if !Stuck(ws[i].db, r) {
      RecurringProgression(states, ops, at[i], at[j], r);
    }
  }
}
