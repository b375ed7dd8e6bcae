/** A run in which an edit moves a schedule onto a slot whose timer was already rejected: nothing is left that could
    move it on. */
module Stranded {
  import opened Results
  import opened Text
  import opened Schedule
  import opened Rules
  import opened Payloads
  import opened Targets
  import opened Keys
  import opened Tables
  import opened Transactions
  import opened Invariants
  import opened Preservation
  import opened Runs
  import opened Frames
  import opened History
  import opened Intakes
  import opened RuleSteps
  import opened Stalling
  import opened Progression
  import opened Recurrence
  import opened Example

  function EveryMinuteFrom(seconds: int): Trigger {
    Trigger(OnSchedule, [], Some(60), Some(Instant(seconds * SECOND)))
  }

  const MAKE: Op :=
    ManageOp(Scope("p", "a", CreateRuleOperation, "k"),
             CreateRequest("o", "r", "n", true, EveryMinuteFrom(120), [], [COMMENT]), 0, 0, 1)

  const EDIT: Op :=
    ManageOp(Scope("p", "a", UpdateRuleOperation, "k"),
             UpdateRequest("o", "r", 1, "n", EveryMinuteFrom(60), [], [COMMENT]), 0, 0, 2)

  function Minute(n: int): (string, Time) {
    ("r", n * 60 * SECOND)
  }

  function Timer(n: int, triggerId: string, executionId: string): Op {
    ReceiveTimerOp("o", "r", ScheduleKey("r", n * 60 * SECOND), n * 60 * SECOND, triggerId, executionId)
  }

  /** The tables that matter of a database with the one rule `r`. */
  ghost predicate Has(db: Db, revision: int, armed: int, ds: Dispatches, triggers: Triggers, executions: Executions) {
    && db.rules.Keys == {"r"}
    && (var rule := db.rules["r"];
        && rule.organizationId == "o" && rule.name == "n" && rule.Armable() && rule.trigger.intervalSeconds == Some(60)
        && rule.revision == revision && rule.nextFireAt == Some(armed * 60 * SECOND) && rule.rowSeq == 1 && rule.actions == [COMMENT])
    && db.dispatches == ds && db.triggers == triggers && db.executions == executions
  }

  lemma ExampleIsValid()
    ensures ValidRequest(MAKE.request, "k") && ValidRequest(EDIT.request, "k")
  {
    CommentIsValid();
  }

  lemma Made()
    ensures Enabled(EMPTY, MAKE) && Has(Apply(EMPTY, MAKE), 1, 2, map[Minute(2) := FirstOf(2)], map[], map[])
    ensures EDIT.scope !in Apply(EMPTY, MAKE).commands
  {
    hide ValidRequest, ScheduleKey;
    ExampleIsValid();
  }

  function FirstOf(n: int): Dispatch {
    Dispatch("o", DispatchPending, 0, ScheduleKey("r", n * 60 * SECOND), None, None)
  }

  function Sent(n: int): Dispatch {
    Dispatch("o", Enqueued, 1, ScheduleKey("r", n * 60 * SECOND), Some("j"), None)
  }

  function Receipt(n: int): TriggerReceipt {
    TimerReceipt("o", "r", ScheduleKey("r", n * 60 * SECOND), n * 60 * SECOND)
  }

  lemma Flushed(db: Db)
    requires Has(db, 1, 2, map[Minute(2) := FirstOf(2)], map[], map[])
    ensures Has(Apply(db, MarkEnqueuedOp(Minute(2), "j")), 1, 2, map[Minute(2) := Sent(2)], map[], map[])
    ensures Apply(db, MarkEnqueuedOp(Minute(2), "j")).commands == db.commands
  {
    hide ScheduleKey;
  }

  lemma Edited(db: Db)
    requires Has(db, 1, 2, map[Minute(2) := Sent(2)], map[], map[]) && EDIT.scope !in db.commands
    ensures Enabled(db, EDIT) && Has(Apply(db, EDIT), 2, 1, map[Minute(2) := Sent(2), Minute(1) := FirstOf(1)], map[], map[])
  {
    hide ValidRequest, ScheduleKey, ReplacePendingSchedule;
    ExampleIsValid();
    EditedDispatches();
  }

  lemma EditedDispatches()
    ensures ReplacePendingSchedule(map[Minute(2) := Sent(2)], "o", "r", Some(60 * SECOND)) == map[Minute(2) := Sent(2), Minute(1) := FirstOf(1)]
  {
    hide ScheduleKey;
  }

  lemma TooEarly(db: Db, ds: Dispatches)
    requires Has(db, 2, 1, ds, map[], map[])
    ensures Has(Apply(db, Timer(2, "t", "x")), 2, 1, ds, map["t" := Receipt(2)], map[])
  {
    hide ScheduleKey;
  }

  lemma InTime(db: Db, ds: Dispatches)
    requires Has(db, 2, 1, ds, map["t" := Receipt(2)], map[])
    ensures Has(Apply(db, Timer(1, "u", "e")), 2, 1, ds, map["t" := Receipt(2), "u" := Receipt(1)],
                map["e" := Execution("o", "r", "u", [COMMENT], Pending, 0, None, None, None)])
  {
    hide Apply, ScheduleKey, NewReceipts;
    KeysAreInjective("r", 60 * SECOND, "r", 120 * SECOND);
    AcceptedTimer(db, Timer(1, "u", "e"), "r");
  }

  lemma LandsOnSpentSlot(db: Db, ds: Dispatches, states: seq<Db>, ops: seq<Op>)
    requires Has(db, 2, 1, ds, map["t" := Receipt(2), "u" := Receipt(1)],
                 map["e" := Execution("o", "r", "u", [COMMENT], Pending, 0, None, None, None)])
    requires Run(states, ops) && |ops| == 2 && states[0] == db && ops[0].ClaimOp? && ops[1].CompleteOp?
    requires "r" in states[2].rules
    requires states[2].rules["r"] == db.rules["r"].(nextFireAt := Some(120 * SECOND), updatedAt := states[2].rules["r"].updatedAt)
    requires Inv(db)
    ensures |states| == 3 && Stuck(states[2], "r")
  {
    hide Inv, Apply, Enabled, ScheduleKey, RulesLater, AttemptsLater, ReceiptsLater, DispatchesLater;
    LaterOverRuns(states, ops, 0, 2);
    OnlyIntakeCreates(states[0], ops[0]);
    OnlyIntakeCreates(states[1], ops[1]);
    IsReceived(states[2].triggers, "o", TimerSource, ScheduleKey("r", 120 * SECOND), "t");
    assert ExecutionLater(db.executions["e"], states[2].executions["e"]);
  }

  lemma UntilMinuteOneRuns() returns (states: seq<Db>, ops: seq<Op>)
    ensures Run(states, ops) && |ops| == 5 && |states| == 6 && states[0] == EMPTY && Inv(states[5])
    ensures Has(states[5], 2, 1, states[5].dispatches, map["t" := Receipt(2), "u" := Receipt(1)],
                map["e" := Execution("o", "r", "u", [COMMENT], Pending, 0, None, None, None)])
  {
    hide Inv, Enabled, Apply, Has, MAKE, EDIT, Timer;
    var mark, early, late := MarkEnqueuedOp(Minute(2), "j"), Timer(2, "t", "x"), Timer(1, "u", "e");
    Made();
    var s1 := Apply(EMPTY, MAKE);
    FirstSteps(s1);
    var s2 := Apply(s1, mark);
    var s3 := Apply(s2, EDIT);
    var s4 := Apply(s3, early);
    states, ops := [EMPTY, s1, s2, s3, s4, Apply(s4, late)], [MAKE, mark, EDIT, early, late];
    InvariantOverRuns(states, ops, 5);
  }

  /** A schedule first armed at minute two, whose job was enqueued, is moved back to minute one; the job for
      minute two is delivered while minute one is still to finish, and is rejected; then minute one finishes. */
  lemma EditsCanStrand() returns (states: seq<Db>, ops: seq<Op>)
    ensures Run(states, ops) && states[0] == EMPTY && Stuck(states[|ops|], "r")
  {
    hide Inv, Has, Stuck, Run;
    var s, o := UntilMinuteOneRuns();
    HasExample(s[5]);
    var tail, tailOps := UnfinishedAdvances(s[5], "r", "e", "w");
    LandsOnSpentSlot(s[5], s[5].dispatches, tail, tailOps);
    RunsJoin(s, o, tail, tailOps);
    states, ops := s + tail[1..], o + tailOps;
  }

  lemma FirstSteps(s1: Db)
    requires Has(s1, 1, 2, map[Minute(2) := FirstOf(2)], map[], map[]) && EDIT.scope !in s1.commands
    ensures var s2 := Apply(s1, MarkEnqueuedOp(Minute(2), "j"));
            && Enabled(s1, MarkEnqueuedOp(Minute(2), "j")) && Enabled(s2, EDIT)
            && var s3 := Apply(s2, EDIT);
            && Enabled(s3, Timer(2, "t", "x"))
            && var s4 := Apply(s3, Timer(2, "t", "x"));
            && Enabled(s4, Timer(1, "u", "e"))
            && var s5 := Apply(s4, Timer(1, "u", "e"));
            && Has(s5, 2, 1, s5.dispatches, map["t" := Receipt(2), "u" := Receipt(1)],
                   map["e" := Execution("o", "r", "u", [COMMENT], Pending, 0, None, None, None)])
  {
    hide Inv, Apply, EDIT, HandleCommand;
    Flushed(s1);
    var s2 := Apply(s1, MarkEnqueuedOp(Minute(2), "j"));
    Edited(s2);
    var s3 := Apply(s2, EDIT);
    TooEarly(s3, s3.dispatches);
    var s4 := Apply(s3, Timer(2, "t", "x"));
    InTime(s4, s4.dispatches);
  }

  lemma HasExample(db: Db)
    requires Has(db, 2, 1, db.dispatches, map["t" := Receipt(2), "u" := Receipt(1)],
                 map["e" := Execution("o", "r", "u", [COMMENT], Pending, 0, None, None, None)])
    ensures "r" in db.rules && db.rules["r"].Armable() && NextSlot(db.rules["r"]) == Some(120 * SECOND)
    ensures "e" in ExecutionsOf(db.executions, "r") && db.rules["r"].nextFireAt.Some? && IsUnfinished(db, "e", db.rules["r"].nextFireAt.value)
    ensures db.executions["e"].attempts == 0
  {
    hide ScheduleKey;
  }

  /** Its first step arms a new rule from an aligned instant with nothing left ahead, as the results on schedules
      assume; so until the edit the rule was not stuck. */
  lemma CreationArms()
    ensures Arms(EMPTY, Apply(EMPTY, MAKE), "r") && Aligned(ArmedFrom(Apply(EMPTY, MAKE).rules["r"], MAKE.clock))
    ensures Clear(Apply(EMPTY, MAKE), "r") && !Stuck(Apply(EMPTY, MAKE), "r")
  {
    hide Inv, Apply, Enabled, Clear, Stuck, ScheduleKey, Received, KeyMatches;
    EmptyDatabase();
    Made();
    CreatedTrigger();
    NewRulesAreClear(EMPTY, MAKE, "r");
    StuckIffMisaligned([EMPTY, Apply(EMPTY, MAKE)], [MAKE], 0, 1, "r");
  }

  lemma CreatedTrigger()
    ensures Enabled(EMPTY, MAKE) && "r" in Apply(EMPTY, MAKE).rules && Apply(EMPTY, MAKE).rules["r"].trigger == EveryMinuteFrom(120)
  {
    hide ValidRequest, ScheduleKey;
    ExampleIsValid();
  }
}
