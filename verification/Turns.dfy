/** One turn of `execute_actions`, stated of the receipt it works on: what it calls, what it records, and how it ends.
    The worker of `Workers` takes the same turn in three moves. */
module Turns {
  import opened Results
  import opened Text
  import opened Schedule
  import opened Rules
  import opened Payloads
  import opened Targets
  import opened Keys
  import opened Tables
  import opened Transactions
  import opened Invariants
  import opened Preservation
  import opened Runs
  import opened Workers
  import opened Safety
  import opened Shape

  /** How `execute_actions`, or one turn of it, ends. */
  datatype Outcome = Done | Refusal(detail: string) | Broken

  /** The answer is recorded on the receipt it was given for, and decides how the turn ends. */
  ghost predicate IsRecorded(before: ActionReceipt, answer: Answer, after: ActionReceipt, outcome: Outcome) {
    match answer
    case Answered(response) =>
      && outcome.Done?
      && after == before.(attempts := before.attempts + 1, status := ActionSucceeded, response := Some(response), lastFailure := None)
    case Rejected(detail) =>
      && outcome == Refusal(detail)
      && after == before.(attempts := before.attempts + 1, status := ActionFailed, response := None, lastFailure := Some(detail))
    case Unavailable => outcome.Broken? && after == before.(attempts := before.attempts + 1)
  }

  /** A succeeded action is only counted, one without a target is refused without a call, and any other is called
      once. */
  ghost predicate IsTurn(before: ActionReceipt, target: Resolution, answers: seq<Answer>, after: ActionReceipt,
                         outcome: Outcome) {
    if before.status.ActionSucceeded? then answers == [] && outcome.Done? && after == before.(attempts := before.attempts + 1)
    else if target.Refused? then answers == [] && IsRecorded(before, Rejected(target.detail), after, outcome)
    else |answers| == 1 && IsRecorded(before, answers[0], after, outcome)
  }

  function TargetOf(claim: Claim, index: nat): Resolution
    requires index < |claim.actions|
  {
    Resolve(index, claim.actions[index], PayloadJson(claim.payload))
  }

  /** Whether a turn calls its dependency. */
  predicate IsCalled(before: Receipts, claim: Claim, index: nat)
    requires index < |claim.actions|
  {
    !StatusAt(before, (claim.executionId, index)).ActionSucceeded? && TargetOf(claim, index).Target?
  }

  function CallOf(claim: Claim, index: nat): Call {
    Call(claim.executionId, index, ActionKey(claim.executionId, index))
  }

  /** The calls of the first `n` turns: in order, one for each action that had not succeeded and has a target. */
  function CallsOf(before: Receipts, claim: Claim, n: nat): seq<Call>
    requires n <= |claim.actions|
  {
    if n == 0 then [] else CallsOf(before, claim, n - 1) + if IsCalled(before, claim, n - 1) then [CallOf(claim, n - 1)] else []
  }

  lemma {:induction false} CallsAreOfOpenActions(before: Receipts, claim: Claim, n: nat, call: Call)
    requires n <= |claim.actions|
    ensures call in CallsOf(before, claim, n) <==> 0 <= call.index < n && call == CallOf(claim, call.index) && IsCalled(before, claim, call.index)
  {
    hide IsCalled, ActionKey;
    if n > 0 {
      CallsAreOfOpenActions(before, claim, n - 1, call);
    }
  }

  lemma {:induction false} CallsAreInOrder(before: Receipts, claim: Claim, n: nat, i: nat, j: nat)
    requires n <= |claim.actions| && i < j < |CallsOf(before, claim, n)|
    ensures CallsOf(before, claim, n)[i].index < CallsOf(before, claim, n)[j].index
  {
    hide IsCalled, ActionKey;
    var calls := CallsOf(before, claim, n - 1);
    if j < |calls| {
      CallsAreInOrder(before, claim, n - 1, i, j);
    } else {
      assert calls[i] in calls;
      CallsAreOfOpenActions(before, claim, n - 1, calls[i]);
    }
  }

  // ----- the same turn as moves -----

  /** Where a worker is after a turn. */
  function PlaceAfterTurn(index: nat, outcome: Outcome): Place {
    match outcome
    case Done => At(index + 1)
    case Refusal(detail) => Refusing(detail)
    case Broken => Suspending
  }

  /** A turn of a worker: it reads the receipt, and unless that says succeeded invokes and records. */
  ghost predicate IsMoves(w: World, c: Claim, answer: Answer, ws: seq<World>, ms: seq<Move>)
  {
    && WorldRun(ws, ms) && ws[0] == w && |ms| >= 1 && ms[0] == ReadReceipt(c)
    && (|ms| == 1 || (|ms| == 3 && ms[1] == Invoke(c, answer, true) && ms[2] == Record(c)))
  }

  lemma ReadsForTurn(w: World, c: Claim)
    requires c in w.threads && w.threads[c].At? && w.threads[c].index < |c.actions| && WorldInv(w)
    ensures CanMove(w, ReadReceipt(c)) && (c.executionId, w.threads[c].index) in w.db.receipts
    ensures var i := w.threads[c].index;
            var k := (c.executionId, i);
            var r := w.db.receipts[k];
            var after := After(w, ReadReceipt(c));
            && after.db == w.db.(receipts := w.db.receipts[k := r.(attempts := r.attempts + 1)]) && after.calls == w.calls
            && c in after.threads
            && after.threads[c] == if r.status.ActionSucceeded? then At(i + 1) else Holding(i, ActionKey(c.executionId, i))
  {
    hide WorldInv, Genuine, ActionKey;
    ReaderFacts(w, c);
    ReaderKey(w, c);
  }

  lemma ReaderKey(w: World, c: Claim)
    requires c in w.threads && w.threads[c].At? && w.threads[c].index < |c.actions| && WorldInv(w)
    requires (c.executionId, w.threads[c].index) in w.db.receipts
    ensures w.db.receipts[(c.executionId, w.threads[c].index)].idempotencyKey == ActionKey(c.executionId, w.threads[c].index)
  {
    hide Inv, ThreadsOk, CallsOk, EffectsOk, ReportsOk, JobsOk, ActionKey;
    StoredKey(w.db, (c.executionId, w.threads[c].index));
  }

  lemma InvokesForTurn(w: World, c: Claim, answer: Answer)
    requires c in w.threads && w.threads[c].Holding? && w.threads[c].index < |c.actions|
    ensures CanMove(w, Invoke(c, answer, true))
    ensures var i := w.threads[c].index;
            var after := After(w, Invoke(c, answer, true));
            && after.db == w.db && c in after.threads
            && after.threads[c] == Heard(i, if TargetOf(c, i).Refused? then Rejected(TargetOf(c, i).detail) else answer)
            && after.calls == if TargetOf(c, i).Target? then w.calls + {Call(c.executionId, i, w.threads[c].key)} else w.calls
  {
    hide Resolve, PayloadJson;
  }

  lemma RecordsForTurn(w: World, c: Claim)
    requires c in w.threads && w.threads[c].Heard? && (c.executionId, w.threads[c].index) in w.db.receipts
    ensures CanMove(w, Record(c))
    ensures var i, answer := w.threads[c].index, w.threads[c].answer;
            var k := (c.executionId, i);
            var after := After(w, Record(c));
            && c in after.threads && after.calls == w.calls
            && after.db == (match answer
                            case Answered(response) =>
                              w.db.(receipts := w.db.receipts[k := w.db.receipts[k].(status := ActionSucceeded, response := Some(response), lastFailure := None)])
                            case Rejected(detail) =>
                              w.db.(receipts := w.db.receipts[k := w.db.receipts[k].(status := ActionFailed, response := None, lastFailure := Some(detail))])
                            case Unavailable => w.db)
            && after.threads[c] == (match answer
                                    case Answered(_) => At(i + 1)
                                    case Rejected(detail) => Refusing(detail)
                                    case Unavailable => Suspending)
  {
  }

  /** Undisturbed, a worker's moves on one action are a turn: for whatever the dependency answers, they make the same
      call, write the same receipt and leave the worker where the outcome says. */
  lemma TurnsAreMoves(w: World, c: Claim, answer: Answer) returns (ws: seq<World>, ms: seq<Move>, outcome: Outcome)
    requires c in w.threads && w.threads[c].At? && w.threads[c].index < |c.actions| && WorldInv(w)
    ensures IsMoves(w, c, answer, ws, ms)
    ensures var i := w.threads[c].index;
            var k := (c.executionId, i);
            var after := ws[|ms|];
            && k in w.db.receipts && k in after.db.receipts && after.db == w.db.(receipts := w.db.receipts[k := after.db.receipts[k]])
            && IsTurn(w.db.receipts[k], TargetOf(c, i), if IsCalled(w.db.receipts, c, i) then [answer] else [], after.db.receipts[k], outcome)
            && after.calls == (if IsCalled(w.db.receipts, c, i) then w.calls + {CallOf(c, i)} else w.calls)
            && c in after.threads && after.threads[c] == PlaceAfterTurn(i, outcome)
  {
    hide WorldInv, CanMove, After, Resolve, PayloadJson, ActionKey;
    var i := w.threads[c].index;
    var k := (c.executionId, i);
    ReadsForTurn(w, c);
    var w1 := After(w, ReadReceipt(c));
    if w.db.receipts[k].status.ActionSucceeded? {
      ws, ms, outcome := [w, w1], [ReadReceipt(c)], Done;
    } else {
      InvokesForTurn(w1, c, answer);
      var w2 := After(w1, Invoke(c, answer, true));
      RecordsForTurn(w2, c);
      ws, ms := [w, w1, w2, After(w2, Record(c))], [ReadReceipt(c), Invoke(c, answer, true), Record(c)];
      outcome := match w2.threads[c].answer
        case Answered(_) => Done
        case Rejected(detail) => Refusal(detail)
        case Unavailable => Broken;
    }
  }
}
