/** A run in which a worker that lost its lease overwrites a receipt: the execution has succeeded, its one action has
    failed. So the shape proved in `Shape` needs the discipline it assumes. */
module Unfenced {
  import opened Results
  import opened Schedule
  import opened Rules
  import opened Payloads
  import opened Targets
  import opened Keys
  import opened Tables
  import opened Transactions
  import opened Invariants
  import opened Preservation
  import opened Runs
  import opened Frames
  import opened Workers
  import opened Safety
  import opened Shape
  import opened Example

  const CREATED: Event :=
    Event("o", "d", IssueCreated, IssueEntity, "i", None, None, None, None, None, [], 0)

  const MAKE: Op :=
    ManageOp(Scope("p", "a", CreateRuleOperation, "k"),
             CreateRequest("o", "r", "n", true, Trigger(OnEvent, [IssueCreated], None, None), [], [COMMENT]), 0, 0, 1)

  const DELIVER: Op := ReceiveEventOp(CREATED, "u", [("r", "e")])

  function ClaimBy(attempt: int, worker: string): Claim {
    Claim("e", "r", "u", attempt, worker, EventPayload(CREATED), [COMMENT])
  }

  const EARLIER := ClaimBy(1, "first")
  const LATER := ClaimBy(2, "second")

  function ClaimAt(worker: string, now: Time): Op {
    ClaimOp("o", worker, ["e"], 1, 60, now)
  }

  /** The execution, its receipt and the workers that hold claims of it. */
  ghost predicate Stands(w: World, e: Execution, receipt: ReceiptStatus, threads: map<Claim, Place>) {
    && w.db.executions == map["e" := e]
    && e.organizationId == "o" && e.ruleId == "r" && e.triggerId == "u" && e.actions == [COMMENT]
    && "u" in w.db.triggers && w.db.triggers["u"] == EventReceipt(CREATED)
    && ("e", 0) in w.db.receipts && w.db.receipts[("e", 0)].status == receipt
    && w.db.receipts[("e", 0)].idempotencyKey == ActionKey("e", 0)
    && w.threads == threads
  }

  function Row(status: ExecutionStatus, attempts: int, lease: Option<(string, Time)>): Execution {
    Execution("o", "r", "u", [COMMENT], status, attempts, None,
              if lease.Some? then Some(lease.value.0) else None, if lease.Some? then Some(lease.value.1) else None)
  }

  lemma CommentResolves()
    ensures Resolve(0, COMMENT, PayloadJson(EventPayload(CREATED))).Target?
  {
    ExampleIsValid();
    EventActionsResolve(COMMENT, CREATED, 0);
  }

  lemma ExampleIsValid()
    ensures ValidRequest(MAKE.request, "k") && ValidAction(COMMENT)
  {
    CommentIsValid();
  }

  lemma Made()
    ensures Enabled(EMPTY, MAKE)
    ensures var db := Apply(EMPTY, MAKE);
            && db.rules.Keys == {"r"} && EventMatches(db.rules["r"], CREATED) && db.rules["r"].actions == [COMMENT]
            && db.executions == map[] && db.triggers == map[] && db.receipts == map[]
  {
    hide ValidRequest;
    ExampleIsValid();
  }

  lemma Delivered(db: Db)
    requires db.rules.Keys == {"r"} && EventMatches(db.rules["r"], CREATED) && db.rules["r"].actions == [COMMENT]
    requires db.executions == map[] && db.triggers == map[] && db.receipts == map[]
    ensures Enabled(db, DELIVER) && Stands(START.(db := Apply(db, DELIVER)), Row(Pending, 0, None), ActionPending, map[])
  {
    hide EventMatches, ActionKey;
    assert DELIVER.matched[0].0 == "r";
    NewReceiptsContents("e", [COMMENT], ("e", 0));
    InsertsOne(db.(triggers := db.triggers["u" := EventReceipt(CREATED)]));
  }

  lemma InsertsOne(db: Db)
    requires "r" in db.rules
    ensures InsertExecutions(db, "o", "u", [("r", "e")], 1) == InsertExecution(db, "o", "r", "u", db.rules["r"].actions, "e")
  {
    assert InsertExecutions(db, "o", "u", [("r", "e")], 0) == db;
  }

  lemma Claims(w: World, e: Execution, attempts: int, worker: string, now: Time, threads: map<Claim, Place>)
    requires Stands(w, e, ActionPending, threads) && e.attempts == attempts && 0 <= attempts < 2 && Claimable(e, "o", now)
    requires e.lastFailure == None
    ensures CanMove(w, Claiming(ClaimAt(worker, now)))
    ensures Stands(After(w, Claiming(ClaimAt(worker, now))), Row(Running, attempts + 1, Some((worker, now + 60 * SECOND))), ActionPending,
                   threads[ClaimBy(attempts + 1, worker) := At(0)])
  {
    hide ActionKey, ExpireAttempt, Apply, Enabled, ThreadsAfter;
    ClaimsOne(w.db, ClaimAt(worker, now), "e");
    assert NewClaims(w.db, ClaimAt(worker, now)) == [ClaimBy(attempts + 1, worker)];
    ClaimThreads(w, ClaimAt(worker, now), ClaimBy(attempts + 1, worker));
  }

  lemma ClaimThreads(w: World, op: Op, claim: Claim)
    requires op.ClaimOp? && Enabled(w.db, op) && NewClaims(w.db, op) == [claim]
    ensures ThreadsAfter(w, Claiming(op)) == w.threads[claim := At(0)]
  {
    hide Enabled;
    forall c ensures c in [claim] <==> c == claim {
    }
    assert w.threads + (map c | c in [claim] :: At(0)) == w.threads[claim := At(0)];
  }

  lemma Reads(w: World, e: Execution, c: Claim, threads: map<Claim, Place>)
    requires Stands(w, e, ActionPending, threads) && c in threads && threads[c] == At(0) && c.executionId == "e" && |c.actions| == 1
    ensures CanMove(w, ReadReceipt(c))
    ensures Stands(After(w, ReadReceipt(c)), e, ActionPending, threads[c := Holding(0, ActionKey("e", 0))])
  {
    hide ActionKey;
    assert ThreadsAfter(w, ReadReceipt(c)) == threads[c := Holding(0, ActionKey("e", 0))];
  }

  lemma Hears(w: World, e: Execution, c: Claim, answer: Answer, threads: map<Claim, Place>)
    requires Stands(w, e, ActionPending, threads) && c in threads && threads[c] == Holding(0, ActionKey("e", 0))
    requires c.actions == [COMMENT] && c.payload == EventPayload(CREATED)
    ensures CanMove(w, Invoke(c, answer, true))
    ensures Stands(After(w, Invoke(c, answer, true)), e, ActionPending, threads[c := Heard(0, answer)])
  {
    hide ActionKey, Resolve, PayloadJson;
    CommentResolves();
    assert ThreadsAfter(w, Invoke(c, answer, true)) == threads[c := Heard(0, answer)];
  }

  lemma Records(w: World, e: Execution, c: Claim, receipt: ReceiptStatus, threads: map<Claim, Place>)
    requires Stands(w, e, receipt, threads) && c in threads && threads[c].Heard? && threads[c].index == 0 && c.executionId == "e"
    requires !threads[c].answer.Unavailable?
    ensures CanMove(w, Record(c))
    ensures var succeeded := threads[c].answer.Answered?;
            Stands(After(w, Record(c)), e, if succeeded then ActionSucceeded else ActionFailed,
                   threads[c := if succeeded then At(1) else Refusing(threads[c].answer.detail)])
  {
    hide ActionKey;
    var succeeded := threads[c].answer.Answered?;
    assert ThreadsAfter(w, Record(c)) == threads[c := if succeeded then At(1) else Refusing(threads[c].answer.detail)];
  }

  lemma Finishes(w: World, c: Claim, worker: string, until: Time, now: Time, threads: map<Claim, Place>)
    requires Stands(w, Row(Running, 2, Some((worker, until))), ActionSucceeded, threads) && now <= until
    requires c == ClaimBy(2, worker) && c in threads && threads[c] == At(1)
    ensures CanMove(w, Finish(c, now))
    ensures Stands(After(w, Finish(c, now)), Row(Succeeded, 2, None), ActionSucceeded, threads[c := Gone])
  {
    hide ActionKey, Apply, AdvanceSchedule;
    CompletesEvent(w.db, c, worker, until, now);
    assert ThreadsAfter(w, Finish(c, now)) == threads[c := Gone];
  }

  lemma CompletesEvent(db: Db, c: Claim, worker: string, until: Time, now: Time)
    requires c == ClaimBy(2, worker) && now <= until && db.executions == map["e" := Row(Running, 2, Some((worker, until)))]
    requires "u" in db.triggers && db.triggers["u"] == EventReceipt(CREATED)
    ensures var op := CompleteOp(c, true, None, now);
            && Enabled(db, op) && Apply(db, op).executions == map["e" := Row(Succeeded, 2, None)]
            && Apply(db, op).triggers == db.triggers && Apply(db, op).receipts == db.receipts
  {
    hide AdvanceSchedule, HandleCommand, ReceiveEvent, ReceiveTimer, ClaimExecutions, ReleaseExecution;
  }

  /** The second worker, whose claim is the current one, finishes the execution while the first still holds a rejection. */
  lemma SecondWorkerFinishes(w: World, rejected: Place) returns (ws: seq<World>, ms: seq<Move>)
    requires Stands(w, Row(Running, 1, Some(("first", 60 * SECOND))), ActionPending, map[EARLIER := rejected]) && rejected.Heard?
    ensures WorldRun(ws, ms) && |ms| == 5 && |ws| == 6 && ws[0] == w
    ensures Stands(ws[5], Row(Succeeded, 2, None), ActionSucceeded, map[EARLIER := rejected, LATER := Gone])
  {
    hide CanMove, After, Stands;
    var now := 61 * SECOND;
    var m0, m1, m2, m3, m4 := Claiming(ClaimAt("second", now)), ReadReceipt(LATER), Invoke(LATER, Answered("done"), true), Record(LATER), Finish(LATER, now);
    var running := Row(Running, 2, Some(("second", now + 60 * SECOND)));
    var t := map[EARLIER := rejected];
    Claims(w, Row(Running, 1, Some(("first", 60 * SECOND))), 1, "second", now, t);
    var w1, t1 := After(w, m0), t[LATER := At(0)];
    Reads(w1, running, LATER, t1);
    var w2, t2 := After(w1, m1), t1[LATER := Holding(0, ActionKey("e", 0))];
    Hears(w2, running, LATER, Answered("done"), t2);
    var w3, t3 := After(w2, m2), t2[LATER := Heard(0, Answered("done"))];
    Records(w3, running, LATER, ActionPending, t3);
    var w4, t4 := After(w3, m3), t3[LATER := At(1)];
    Finishes(w4, LATER, "second", now + 60 * SECOND, now, t4);
    assert t4[LATER := Gone] == map[EARLIER := rejected, LATER := Gone];
    ws, ms := [w, w1, w2, w3, w4, After(w4, m4)], [m0, m1, m2, m3, m4];
  }

  lemma FirstWorkerHears(w: World) returns (ws: seq<World>, ms: seq<Move>)
    requires Stands(w, Row(Pending, 0, None), ActionPending, map[])
    ensures WorldRun(ws, ms) && |ms| == 3 && |ws| == 4 && ws[0] == w
    ensures Stands(ws[3], Row(Running, 1, Some(("first", 60 * SECOND))), ActionPending, map[EARLIER := Heard(0, Rejected("no"))])
  {
    hide CanMove, After, Stands;
    var m0, m1, m2 := Claiming(ClaimAt("first", 0)), ReadReceipt(EARLIER), Invoke(EARLIER, Rejected("no"), true);
    var running := Row(Running, 1, Some(("first", 60 * SECOND)));
    Claims(w, Row(Pending, 0, None), 0, "first", 0, map[]);
    var w1, t1 := After(w, m0), map[][EARLIER := At(0)];
    Reads(w1, running, EARLIER, t1);
    var w2, t2 := After(w1, m1), t1[EARLIER := Holding(0, ActionKey("e", 0))];
    Hears(w2, running, EARLIER, Rejected("no"), t2);
    assert t2[EARLIER := Heard(0, Rejected("no"))] == map[EARLIER := Heard(0, Rejected("no"))];
    ws, ms := [w, w1, w2, After(w2, m2)], [m0, m1, m2];
  }

  lemma WorldReady() returns (ws: seq<World>, ms: seq<Move>)
    ensures WorldRun(ws, ms) && |ms| == 2 && |ws| == 3 && ws[0] == START
    ensures Stands(ws[2], Row(Pending, 0, None), ActionPending, map[])
  {
    hide Apply, Enabled, Stands;
    Made();
    var w1 := After(START, Handle(MAKE));
    assert w1 == START.(db := Apply(EMPTY, MAKE)) by { assert w1.threads == map[]; }
    Delivered(w1.db);
    var w2 := After(w1, Handle(DELIVER));
    assert w2 == START.(db := Apply(w1.db, DELIVER)) by { assert w2.threads == map[]; }
    ws, ms := [START, w1, w2], [Handle(MAKE), Handle(DELIVER)];
  }

  lemma RunsJoin(ws: seq<World>, ms: seq<Move>, ws': seq<World>, ms': seq<Move>)
    requires WorldRun(ws, ms) && WorldRun(ws', ms') && |ws| == |ms| + 1 && |ws'| == |ms'| + 1 && ws[|ms|] == ws'[0]
    ensures WorldRun(ws + ws'[1..], ms + ms')
  {
    hide CanMove, After;
  }

  /** A run from empty tables that ends with a succeeded execution whose only receipt is failed. */
  lemma StaleWorkersOverwriteReceipts() returns (ws: seq<World>, ms: seq<Move>)
    ensures WorldRun(ws, ms) && |ws| == |ms| + 1 && ws[0] == START
    ensures var db := ws[|ms|].db;
            && "e" in db.executions && db.executions["e"].status.Succeeded?
            && ("e", 0) in db.receipts && db.receipts[("e", 0)].status.ActionFailed?
  {
    hide CanMove, After, Stands, WorldRun;
    var ws1, ms1 := WorldReady();
    var ws2, ms2 := FirstWorkerHears(ws1[2]);
    var ws3, ms3 := SecondWorkerFinishes(ws2[3], Heard(0, Rejected("no")));
    var last := ws3[5];
    Records(last, Row(Succeeded, 2, None), EARLIER, ActionSucceeded, map[EARLIER := Heard(0, Rejected("no")), LATER := Gone]);
    RunsJoin(ws1, ms1, ws2, ms2);
    RunsJoin(ws1 + ws2[1..], ms1 + ms2, ws3, ms3);
    OneMove(last, Record(EARLIER));
    RunsJoin(ws1 + ws2[1..] + ws3[1..], ms1 + ms2 + ms3, [last, After(last, Record(EARLIER))], [Record(EARLIER)]);
    ws := ws1 + ws2[1..] + ws3[1..] + [last, After(last, Record(EARLIER))][1..];
    ms := ms1 + ms2 + ms3 + [Record(EARLIER)];
    ReadOff(ws[|ms|], map[EARLIER := Heard(0, Rejected("no")), LATER := Gone][EARLIER := Refusing("no")]);
  }

  lemma OneMove(w: World, m: Move)
    requires CanMove(w, m)
    ensures WorldRun([w, After(w, m)], [m])
  {
  }

  lemma ReadOff(w: World, threads: map<Claim, Place>)
    requires Stands(w, Row(Succeeded, 2, None), ActionFailed, threads)
    ensures "e" in w.db.executions && w.db.executions["e"].status.Succeeded?
    ensures ("e", 0) in w.db.receipts && w.db.receipts[("e", 0)].status.ActionFailed?
  {
  }
}
