/** Workers, the dependency and Jobs around the database: every step of `reconcile`, `execute_actions` and
    `flush_schedules` is its own move, and any number of workers interleave, crash or carry on with a lost lease. */
module Workers {
  import opened Results
  import opened Text
  import opened Schedule
  import opened Rules
  import opened Payloads
  import opened Targets
  import opened Keys
  import opened Tables
  import opened Transactions
  import opened Invariants
  import opened Preservation
  import opened Runs
  import opened Frames
  import opened History
  import opened Intakes

  /** A dependency call succeeds, is rejected as a domain error, or fails without telling what happened. */
  datatype Answer = Answered(response: string) | Rejected(detail: string) | Unavailable

  /** Where a worker is with one claimed execution. */
  datatype Place =
    | At(index: nat)
    | Holding(index: nat, key: Key)
    | Heard(index: nat, answer: Answer)
    | Refusing(detail: string)
    | Suspending
    | Gone

  datatype Call = Call(executionId: string, index: int, key: Key)

  /** `applied` and `effects` belong to the dependency, which applies each key at most once; `calls` records every
      call made to it, any of which may land late, after its worker gave up on it; `listed` is what flushes hold in
      memory and `jobs` what Jobs accepted. */
  datatype World = World(
    db: Db, threads: map<Claim, Place>, applied: set<Key>, effects: seq<(string, int)>, calls: set<Call>,
    listed: set<ScheduleDispatch>, jobs: set<ScheduleDispatch>)

  const START: World := World(EMPTY, map[], {}, [], {}, {}, {})

  datatype Move =
    | Handle(op: Op)
    | Claiming(op: Op)
    | ReadReceipt(claim: Claim)
    | Invoke(claim: Claim, answer: Answer, takesEffect: bool)
    | Land(call: Call)
    | Record(claim: Claim)
    | Interrupt(claim: Claim)
    | Finish(claim: Claim, now: Time)
    | Crash(claim: Claim)
    | List(slot: (string, Time))
    | Enqueue(dispatch: ScheduleDispatch)
    | Mark(dispatch: ScheduleDispatch, jobId: string)
    | MarkLate(dispatch: ScheduleDispatch, jobId: string)
    | NoteFailure(dispatch: ScheduleDispatch, reason: string)

  /** The transaction a move runs, if any. */
  ghost function OpOf(w: World, m: Move): Option<Op>
    requires CanMove(w, m)
  {
    match m
    case Handle(op) => Some(op)
    case Claiming(op) => Some(op)
    case ReadReceipt(c) => if w.threads[c].index > I32_MAX then None else Some(ActionStatusOp(c.executionId, w.threads[c].index))
    case Record(c) =>
      (match w.threads[c].answer
       case Answered(response) => Some(CompleteActionOp(c.executionId, w.threads[c].index, true, Some(response), None))
       case Rejected(detail) => Some(CompleteActionOp(c.executionId, w.threads[c].index, false, None, Some(detail)))
       case Unavailable => None)
    case Finish(c, now) =>
      (match w.threads[c]
       case At(_) => Some(CompleteOp(c, true, None, now))
       case Refusing(detail) => Some(CompleteOp(c, false, Some(detail), now))
       case Suspending => Some(ReleaseOp(c, "dependency_runtime_failure", now))
       case _ => None)
    case Mark(d, jobId) => Some(MarkEnqueuedOp(SlotKey(d), jobId))
    case MarkLate(d, jobId) => Some(MarkCancelledOp(SlotKey(d), jobId))
    case NoteFailure(d, reason) => Some(RecordFailureOp(SlotKey(d), reason))
    case _ => None
  }

  ghost predicate CanMove(w: World, m: Move) {
    match m
    case Handle(op) => (op.ManageOp? || op.ReceiveEventOp? || op.ReceiveTimerOp?) && Enabled(w.db, op)
    case Claiming(op) => op.ClaimOp? && Enabled(w.db, op)
    case ReadReceipt(c) => c in w.threads && w.threads[c].At? && w.threads[c].index < |c.actions|
    case Invoke(c, answer, takesEffect) =>
      && c in w.threads && w.threads[c].Holding? && w.threads[c].index < |c.actions|
      && (answer.Answered? ==> takesEffect || w.threads[c].key in w.applied)
    case Land(call) => call in w.calls
    case Record(c) => c in w.threads && w.threads[c].Heard?
    case Interrupt(c) => c in w.threads && (w.threads[c].At? || w.threads[c].Heard?)
    case Finish(c, _) =>
      && c in w.threads && Genuine(w.db, c)
      && ((w.threads[c].At? && w.threads[c].index == |c.actions|) || w.threads[c].Refusing? || w.threads[c].Suspending?)
    case Crash(c) => c in w.threads
    case List(slot) => slot in w.db.dispatches && w.db.dispatches[slot].state.DispatchPending?
    case Enqueue(d) => d in w.listed
    case Mark(d, _) => d in w.listed && d in w.jobs
    case MarkLate(d, _) => d in w.listed && d in w.jobs
    case NoteFailure(d, _) => d in w.listed
  }

  /** The database after a move: that of its transaction, or the same. */
  ghost function DbAfter(w: World, m: Move): Db
    requires CanMove(w, m)
  {
    match OpOf(w, m)
    case None => w.db
    case Some(op) => Apply(w.db, op)
  }

  /** The claims a claiming transaction hands out. */
  ghost function NewClaims(db: Db, op: Op): seq<Claim>
    requires op.ClaimOp? && Enabled(db, op)
  {
    var reply := ClaimExecutions(db, op.organizationId, op.worker, op.picked, op.limit, op.leaseSeconds, op.now).reply;
    if reply.Ok? then reply.value else []
  }

  ghost function PlaceAfter(w: World, m: Move, c: Claim): Place
    requires CanMove(w, m) && c in w.threads
  {
    var place := w.threads[c];
    match m
    case ReadReceipt(d) =>
      if d != c then place
      else if place.index > I32_MAX then Refusing("too_many_actions")
      else (match ActionStatus(w.db, c.executionId, place.index).reply
            case Err(_) => Suspending
            case Ok((status, key)) => if status.ActionSucceeded? then At(place.index + 1) else Holding(place.index, key))
    case Invoke(d, answer, _) =>
      if d != c then place
      else (match Resolve(place.index, c.actions[place.index], PayloadJson(c.payload))
            case Refused(detail) => Heard(place.index, Rejected(detail))
            case Target(_, _) => Heard(place.index, answer))
    case Record(d) =>
      if d != c then place
      else (match place.answer
            case Answered(_) => At(place.index + 1)
            case Rejected(detail) => Refusing(detail)
            case Unavailable => Suspending)
    case Interrupt(d) => if d != c then place else Suspending
    case Finish(d, _) => if d != c then place else Gone
    case Crash(d) => if d != c then place else Gone
    case _ => place
  }

  ghost function ThreadsAfter(w: World, m: Move): map<Claim, Place>
    requires CanMove(w, m)
  {
    if m.Claiming? then w.threads + map c | c in NewClaims(w.db, m.op) :: At(0)
    else map c | c in w.threads :: PlaceAfter(w, m, c)
  }

  /** Whether a move reaches the dependency, which it does only with a resolved target. */
  ghost predicate Calls(w: World, m: Move) {
    && m.Invoke? && CanMove(w, m)
    && Resolve(w.threads[m.claim].index, m.claim.actions[w.threads[m.claim].index], PayloadJson(m.claim.payload)).Target?
  }

  /** The request a move sends to the dependency, or whose late arrival it is. */
  ghost function RequestOf(w: World, m: Move): Call
    requires Calls(w, m) || m.Land?
  {
    if m.Land? then m.call else Call(m.claim.executionId, w.threads[m.claim].index, w.threads[m.claim].key)
  }

  ghost predicate TakesEffect(w: World, m: Move) {
    ((Calls(w, m) && m.takesEffect) || m.Land?) && RequestOf(w, m).key !in w.applied
  }

  function Listing(ds: Dispatches, slot: (string, Time)): set<ScheduleDispatch> {
    if slot in ds then {JobOf(slot, ds[slot])} else {}
  }

  ghost function After(w: World, m: Move): World
    requires CanMove(w, m)
  {
    World(DbAfter(w, m), ThreadsAfter(w, m),
          if TakesEffect(w, m) then w.applied + {RequestOf(w, m).key} else w.applied,
          if TakesEffect(w, m) then w.effects + [(RequestOf(w, m).executionId, RequestOf(w, m).index)] else w.effects,
          if Calls(w, m) then w.calls + {RequestOf(w, m)} else w.calls,
          if m.List? then w.listed + Listing(w.db.dispatches, m.slot) else w.listed,
          if m.Enqueue? then w.jobs + {m.dispatch} else w.jobs)
  }

  ghost predicate WorldRun(ws: seq<World>, ms: seq<Move>) {
    && |ws| == |ms| + 1
    && forall i :: 0 <= i < |ms| ==> CanMove(ws[i], ms[i]) && ws[i + 1] == After(ws[i], ms[i])
  }
}
