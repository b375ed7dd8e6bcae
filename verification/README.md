# Project Automation: a verified model of the durable engine

The PostgreSQL plugin of Project Automation keeps rules, the events and timers that trigger them, and the executions
they lead to, in seven tables. Workers that may die at any moment claim executions under a lease, call other
capabilities with idempotency keys, and record what they heard; recurring rules hand their next slot to Jobs and are
advanced when the execution of the slot ends. This project models that engine and proves what it promises.

- `Text`, `Schedule`, `Rules`, `Payloads`, `Keys`, `Targets`, `Changes`: the pure parts. Decimal and key text,
  first-fire arithmetic, validators, the condition evaluator, the target of an action, and the change it asks for.
- `Tables`, `Transactions`: the rows, and every storage transaction as a function from one database to the next.
- `Storage`: the same transactions as methods of a class whose fields are the tables, statement by statement, with
  roll-back; each is proved to do what its function in `Transactions` says.
- `Invariants`, `Preservation`, `Runs`: what every reachable database satisfies, one lemma per transaction, and runs,
  that is any interleaving of transactions with any clock readings.
- `Frames`, `Effects`, `History`: what one transaction can write, and what later states keep of earlier ones.
- `Intakes`, `CommandLaws`, `Dispatching`: deduplication and snapshots, commands and revisions, dispatch states.
- `Outcomes`: what a command writes, what it answers, and what is left of a deleted rule. `Leasing`: what a lease
  protects, and what releases and completions write under it.
- `RuleSteps`, `Stalling`, `Progression`, `Recurrence`, `Collisions`: when a recurring rule is stuck and when it can go
  on, which slots it visits, which armings start it, and which can end up stuck. `Stranded` holds an example run.
- `Workers`, `Safety`, `Shape`, `Delivery`: workers, dependency and Jobs around the database, with every call, every
  receipt and every crash its own step. `Unfenced` holds an example run, `Example` what both example runs share.
- `Turns`: one turn of the loop over an execution's actions, and why a worker's moves are such turns.
- `Reconciling`: the loops of the plugin itself, and `Paging`: its two cursor-paged listings.

## How the source is read

- A transaction is one atomic step. An early error or a replay drops the transaction, so the database stays as it was.
  Workers and flushes are not atomic: their steps interleave freely in `Workers`.
- The process clock and the transaction timestamp are parameters, and so are new version 4 UUIDs and sequence values,
  which are fresh. A query without an order, or with SKIP LOCKED, returns its rows as a parameter that may be any
  answer the query allows; the order of texts is a parameter, too. A UUID of version 5 and a SHA-256 digest are taken
  to identify what they were made from.
- Instants are nanoseconds. A TIMESTAMPTZ column keeps whole microseconds, and the code hashes the unrounded instant
  into the key of a dispatch but compares the stored one.
- A dependency applies each key at most once and has applied it when it answers; a request may also land after the
  worker that sent it gave up. Jobs hands out, any number of times, what flushes gave it. Where only the database is
  modelled, each dispatch ever made may have been given to Jobs, since each was pending at first.
- Instants that the process handles are representable, as their type says; slots past the last representable instant do
  not exist.

## Findings

- A recurring rule armed at a new slot, counted from an instant with a fraction of a microsecond, as `now + interval`
  usually is, is enqueued, but intake refuses every job it has (`Recurrence.MisalignedScheduleNeverRuns`). A slot that
  already has a dispatch keeps that one's key, whatever the edit counted from. So, with nothing left at later slots, an
  unedited rule is stuck if and only if the key of the slot it was armed at is not the one intake expects; for a new
  slot that means an instant that is not aligned (`Recurrence.StuckIffMisaligned`).
- An edit can move a rule onto the way to a slot whose timer was already received and rejected; the enqueued dispatch is
  not reopened, and the rule then stays there until the next edit (`Stranded.EditsCanStrand`). Before an edit is
  committed it can be told: some run without a further edit strands the rule if and only if the slot it arms cannot run,
  or a later slot of the same spacing has a dispatch or a received timer (`Collisions.EditStrandsIff`). The repository's
  `README.md`, at lines 121 to 123, says that edits do not collide with older dispatch receipts; the slot an edit arms
  lies in the future, but the chain can reach one that is spent.
- Recording an action's receipt checks no lease, so a worker that lost its execution can turn the receipt of a succeeded
  execution to failed (`Unfenced.StaleWorkersOverwriteReceipts`). Receipts keep their shape in a run if and only if every
  recording and every completion meets a guard on the statuses before it (`Shape.ShapesHoldIff`): a success only after
  successes and not of a failed execution, unless it repeats one; a failure only after successes and where there was no
  success, or over the last success while the next action is pending and the execution has not succeeded. Workers that
  act only on their current claim meet it. Keys, executions, attempts and schedules need no such condition.
- The answer to the duplicate of a rejected timer says that it was accepted, with no executions. The flag repeats the
  first answer if and only if the first delivery met the armed slot of its rule (`Intakes.DuplicateFlagAgreesIffAccepted`);
  the execution ids always do.
- An update of an issue may carry labels without asking to replace them. It is valid, and the labels go nowhere; of any
  other valid action every field is passed on (`Changes.NothingIgnoredIff`).

## Model

| member | source | states |
|---|---|---|
| Text.RevisionTextIsCanonical | crates/lenso-project-automation-postgres-plugin/src/storage.rs:56-66 | A text parses as a revision or cursor if and only if it is the decimal numeral of a positive 64-bit integer, and then to that integer |
| Text.JoinedInjective | crates/lenso-project-automation-postgres-plugin/src/storage.rs:221-229 | Names `owner:number` determine owner and number, although owners may contain colons and digits |
| Keys.KeysAreInjective | crates/lenso-project-automation-postgres-plugin/src/storage.rs:680-683 | Schedule keys and action keys are equal only for the same rule and instant, or the same execution and index |
| Schedule.FirstFireIsLeastFutureSlot | crates/lenso-project-automation-postgres-plugin/src/storage.rs:185-215 | For a past or present start the first fire is exactly the least slot after now, within one interval of now; the product and the successor never overflow for validated intervals |
| Schedule.FirstFireFromNow | crates/lenso-project-automation-postgres-plugin/src/storage.rs:210-212 | Without a start, the first fire is exactly one interval from now, and the only failure is an instant that cannot be represented |
| Schedule.FirstFireOfFutureStart | crates/lenso-project-automation-postgres-plugin/src/storage.rs:196-209 | A start still to come is itself the first fire |
| Schedule.FirstFireIff | crates/lenso-project-automation-postgres-plugin/src/storage.rs:185-215 | In all cases an instant is the answer if and only if it is the first fire as declared and can be represented |
| Schedule.FirstFireAligned | crates/lenso-project-automation-postgres-plugin/src/storage.rs:196-213 | Storage keeps a first fire unchanged if and only if the instant it was counted from is microsecond-aligned |
| Payloads.ConditionsAgree | crates/lenso-project-automation-postgres-plugin/src/storage.rs:619-647 | The evaluator over JSON agrees with the typed meaning of conditions on every event, absent fields, `not_equals` and labels included |
| Targets.ScheduledActionsResolve | crates/lenso-project-automation-postgres-plugin/src/lib.rs:1597-1610 | Every action of a valid scheduled rule reaches a dependency, on the target it names |
| Targets.EventActionsResolve | crates/lenso-project-automation-postgres-plugin/src/lib.rs:978-1124 | A valid action of an event rule goes to its own target, else to the event's, and is refused exactly if there is neither |
| Changes.ValidActionIff | crates/lenso-project-automation-postgres-plugin/src/lib.rs:1486-1558 | An action with valid fields is valid if and only if it fits its kind, asks for some change, and says nothing that its call does not pass on, labels of an update that does not replace them excepted |
| Changes.NothingIgnoredIff | crates/lenso-project-automation-postgres-plugin/src/lib.rs:1072-1076 | A valid action is determined by the change it asks for if and only if it is not an update that leaves the labels alone |
| Changes.LabelsCanBeIgnored | crates/lenso-project-automation-postgres-plugin/src/lib.rs:1520-1530 | A valid action whose labels go nowhere |
| Intakes.TimerExecutionsResolve | crates/lenso-project-automation-postgres-plugin/src/lib.rs:912-997 | In every reachable state no action of a timer execution is refused for organization, target, comment body or index |
| Preservation.DispatchAfter | crates/lenso-project-automation-postgres-plugin/src/storage.rs:231-260 | What replacing a schedule does to any one dispatch: the armed slot ends up live, other pending rows of the rule are cancelled, enqueued rows and rows of other rules stay |
| Preservation.ManagementKeepsInvariant | crates/lenso-project-automation-postgres-plugin/src/storage.rs:277-617 | Create, update, set-enabled and delete keep the invariant, whether they commit, replay or fail |
| Preservation.EventKeepsInvariant | crates/lenso-project-automation-postgres-plugin/src/storage.rs:710-767 | So does the intake of an event |
| Preservation.TimerKeepsInvariant | crates/lenso-project-automation-postgres-plugin/src/storage.rs:769-831 | So does the intake of a timer, accepted, rejected or repeated |
| Preservation.ClaimAllKeepsInvariant | crates/lenso-project-automation-postgres-plugin/src/storage.rs:844-903 | So does claiming any rows that are not terminal |
| Preservation.EndAttemptKeepsInvariant | crates/lenso-project-automation-postgres-plugin/src/storage.rs:939-954 | So do the two updates that end an attempt under its lease |
| Preservation.AdvanceKeepsInvariant | crates/lenso-project-automation-postgres-plugin/src/storage.rs:989-1028 | So does moving a recurring rule to its next slot |
| Preservation.CompleteKeepsInvariant | crates/lenso-project-automation-postgres-plugin/src/storage.rs:961-1034 | So does completing an execution |
| Runs.StepKeepsInvariant | crates/lenso-project-automation-postgres-plugin/src/storage.rs:277-1094 | Every transaction keeps the invariant |
| Runs.InvariantOverRuns | crates/lenso-project-automation-postgres-plugin/migrations/001_create_project_automation.sql:1-119 | In every state of every run: foreign keys and uniqueness; a rule has a next fire iff it is a live enabled schedule, pending dispatches are for it, and it has a live dispatch; attempts are 1 to n, all but the last retryable, and the last one, owner and lease tell the status; one keyed receipt per action; complete command receipts; valid rules and snapshots |
| Frames.StepWrites | crates/lenso-project-automation-postgres-plugin/src/storage.rs:277-1094 | Which tables each transaction may write |
| Effects.StepMovesReceipt | crates/lenso-project-automation-postgres-plugin/src/storage.rs:905-932 | A receipt is created untried by an intake; after that reading its action's status counts an attempt, recording its outcome writes that, and no other step changes it |
| Effects.StepMovesExecution | crates/lenso-project-automation-postgres-plugin/src/storage.rs:844-1034 | An execution changes only by intake, by a claim while it is not terminal, and by the release or completion of the claim that holds its lease |
| History.LaterOverRuns | crates/lenso-project-automation-postgres-plugin/src/storage.rs:277-1094 | Later states keep command receipts, triggers, snapshots, keys, ended attempts, terminal executions, deleted rules and enqueued dispatches; revisions and attempts never fall |
| History.StaleClaimsAreFenced | crates/lenso-project-automation-postgres-plugin/src/storage.rs:973-980 | Once an execution was claimed again or is terminal, completing or releasing an earlier claim changes nothing at all, whatever the clock |
| Leasing.HeldIsPickedIff | crates/lenso-project-automation-postgres-plugin/src/storage.rs:857 | A held execution can be claimed if and only if its lease is over |
| Leasing.LeaseExcludesOthers | crates/lenso-project-automation-postgres-plugin/src/storage.rs:857 | No claim made within a lease picks the execution it holds |
| Leasing.HeldUntilEnded | crates/lenso-project-automation-postgres-plugin/src/storage.rs:844-903 | While every claim of a run comes within the lease, a held claim keeps its worker, its lease and its attempt number until that worker releases or completes it |
| Leasing.HoldsLeaseIffRunsInTime | crates/lenso-project-automation-postgres-plugin/src/storage.rs:939-945 | A claim passes the lease check if and only if its attempt is running, by its worker, and in time |
| Leasing.ReleaseWrites | crates/lenso-project-automation-postgres-plugin/src/storage.rs:934-959 | A release goes through if and only if the attempt runs in time, and then writes the execution pending and the attempt retryable with the reason, and nothing else |
| Leasing.CompletionWrites | crates/lenso-project-automation-postgres-plugin/src/storage.rs:961-1034 | A completion goes through only in time, writes status and failure to the execution and its attempt, and otherwise changes nothing; that of an event execution cannot fail in time |
| Leasing.CompletionAdvances | crates/lenso-project-automation-postgres-plugin/src/storage.rs:989-1028 | That of a timer execution moves its rule one interval on if and only if the rule is still at its slot, in nothing else, and fails in time exactly if there is no such instant |
| Leasing.ClaimRetiresAttempt | crates/lenso-project-automation-postgres-plugin/src/storage.rs:866-887 | Claiming an execution whose lease is over retires the running attempt with the reason and starts the next one |
| Leasing.ClaimsAreNeverLost | crates/lenso-project-automation-postgres-plugin/src/storage.rs:844-959 | With any other workers in between, a held claim is later ended, released for a retry, still held under its lease, or overtaken by a later claim |
| History.EndsAtMostOnce | crates/lenso-project-automation-postgres-plugin/src/storage.rs:961-1034 | An execution becomes terminal at most once in a run |
| Effects.AdvancesAtMostOnce | crates/lenso-project-automation-postgres-plugin/src/storage.rs:989-1028 | An execution advances its schedule at most once in a run |
| Intakes.OneExecutionPerSlot | crates/lenso-project-automation-postgres-plugin/src/storage.rs:777-830 | At most one execution exists per rule and scheduled instant, over all organizations and deliveries |
| Intakes.StepAccepts | crates/lenso-project-automation-postgres-plugin/src/storage.rs:729-758 | An execution is only ever created for a live enabled rule: by an event it matches, or by a timer for the very fire it is armed at |
| Intakes.SnapshotsSurviveRuns | crates/lenso-project-automation-postgres-plugin/src/storage.rs:649-688 | Every execution still has the actions its rule had when its trigger was accepted, whatever happened to the rule |
| Intakes.EventIntakeIsExact | crates/lenso-project-automation-postgres-plugin/src/storage.rs:710-767 | A first delivery creates exactly one execution for each rule of the organization that the event fires, and no other |
| Intakes.EventIsStored | crates/lenso-project-automation-postgres-plugin/src/storage.rs:716-728 | A first delivery is stored with its event, key and time, and no other delivery changes |
| Intakes.TimerAnswers | crates/lenso-project-automation-postgres-plugin/src/storage.rs:777-800 | A timer is refused exactly for a key that is not that of its rule and instant or, on a first delivery, for an unknown rule; a refusal and a duplicate change nothing |
| Intakes.TimerIntakeIsExact | crates/lenso-project-automation-postgres-plugin/src/storage.rs:769-831 | A first delivery of a timer is stored, and it is accepted, with one execution of its rule, if and only if the rule has its next fire at that very instant |
| Intakes.DeliveriesAreStable | crates/lenso-project-automation-postgres-plugin/src/storage.rs:690-708 | A received delivery stays received, with the same executions, in all later states |
| Intakes.DuplicateEventsRepeatTheAnswer | crates/lenso-project-automation-postgres-plugin/src/storage.rs:724-728 | Later duplicates of an event answer the ids of the first delivery and change nothing |
| Intakes.DuplicateTimersRepeatTheAnswer | crates/lenso-project-automation-postgres-plugin/src/storage.rs:788-792 | So do later duplicates of a timer, even of a rejected one |
| Intakes.DuplicateFlagAgreesIffAccepted | crates/lenso-project-automation-postgres-plugin/src/storage.rs:690-708 | A duplicate timer repeats the first ids always, and the first flag if and only if the first delivery was accepted |
| CommandLaws.ReplaysRepeatTheResponse | crates/lenso-project-automation-postgres-plugin/src/storage.rs:74-116 | A repeated command answers the stored response and changes nothing, ever after |
| CommandLaws.ConflictIffRequestDiffers | crates/lenso-project-automation-postgres-plugin/src/storage.rs:106-115 | A stored scope conflicts if and only if the request differs: the branch for a missing response is never taken |
| CommandLaws.OneCommitPerRevision | crates/lenso-project-automation-postgres-plugin/src/storage.rs:445-474 | Of all commands that name one revision of one rule, at most one commits in a run |
| CommandLaws.RevisionsCountCommands | crates/lenso-project-automation-postgres-plugin/src/storage.rs:411-617 | A rule's revision is one plus the number of committed commands that changed it; replays, failures and schedule advances leave it alone |
| Outcomes.InitialNextFireIff | crates/lenso-project-automation-postgres-plugin/src/storage.rs:185-215 | A rule is armed at the first fire of its trigger if it is an enabled schedule, and otherwise not at all |
| Outcomes.CommandWrites | crates/lenso-project-automation-postgres-plugin/src/storage.rs:277-617 | A committed command leaves the row it asked for: a creation and an update the requested definition, a set-enabled the requested flag, a deletion the time of deletion; what the request does not speak of is kept, the revision is one further, the rule is armed at its first fire, no other rule changes, and the answer and the stored response are that row |
| Outcomes.DeletedRulesAreGone | crates/lenso-project-automation-postgres-plugin/src/storage.rs:559-617 | After a committed deletion, in every later state of the run, the row is unchanged, deleted, disabled and without next fire; no listing holds it, no event matches it, no timer is accepted for it, and a new command that names it finds none |
| Outcomes.DeletedRulesRunNothing | crates/lenso-project-automation-postgres-plugin/src/storage.rs:729-811 | No execution is ever created for a deleted rule |
| Outcomes.DeletionFreesName | crates/lenso-project-automation-postgres-plugin/src/storage.rs:589-592 | Deleting a rule frees its name |
| Outcomes.CommandAnswers | crates/lenso-project-automation-postgres-plugin/src/storage.rs:277-617 | When a new valid command is answered not found, invalid request, identifier conflict, revision conflict, name conflict or a runtime failure, and when it commits: each if and only if; a refused command changes nothing |
| Dispatching.StepMoves | crates/lenso-project-automation-postgres-plugin/src/storage.rs:231-260 | The moves of a dispatch's state, and what causes each |
| Dispatching.EnqueuedIsFinal | crates/lenso-project-automation-postgres-plugin/src/storage.rs:1071-1084 | Enqueued is absorbing, with the organization and key of the row |
| Dispatching.CancelledNeedsRearming | crates/lenso-project-automation-postgres-plugin/src/storage.rs:1071-1084 | A cancelled dispatch becomes enqueued only after its rule was armed at that slot again |
| Dispatching.PendingIsUnique | crates/lenso-project-automation-postgres-plugin/src/storage.rs:231-260 | At most one dispatch of a rule is pending, and no two dispatches share a key |
| Dispatching.ReportedEnqueuesAreExact | crates/lenso-project-automation-postgres-plugin/src/lib.rs:1162-1242 | Under any interleaving the enqueues that flushes report are exactly the dispatches that became enqueued |
| Dispatching.PayloadPassesIffAligned | crates/lenso-project-automation-postgres-plugin/src/storage.rs:777-779 | The payload flushed for an armed slot passes the key check of intake if and only if the dispatch that was there carries the right key, or, if there was none, the armed instant is aligned |
| RuleSteps.StepElsewhere | crates/lenso-project-automation-postgres-plugin/src/storage.rs:231-260 | A step that neither edits a schedule nor delivers its timer nor completes its execution leaves its rule, its dispatches and its executions' progress alone |
| RuleSteps.UnfinishedIsClaimable | crates/lenso-project-automation-postgres-plugin/src/storage.rs:857-858 | No execution is lost: each one that is not terminal, unless its attempt counter is exhausted, can be claimed at some instant, and its claim then holds the lease |
| Stalling.StuckSchedulesStay | crates/lenso-project-automation-postgres-plugin/src/storage.rs:997-1000 | A stuck rule, with no execution of its slot to finish and jobs that do nothing, stays armed where it is until it is edited, whatever Jobs delivers and workers do |
| Stalling.GoesOnIffNotStuck | crates/lenso-project-automation-postgres-plugin/src/storage.rs:961-1034 | An armed rule can be armed anew without an edit if and only if it is not stuck and there is a next slot |
| Stranded.EditsCanStrand | crates/lenso-project-automation-postgres-plugin/src/storage.rs:244-248 | A run from empty tables, with one edit, that ends with a stuck rule |
| Stranded.CreationArms | crates/lenso-project-automation-postgres-plugin/src/storage.rs:277-347 | The creation that starts this run arms a rule as the results on schedules assume, and leaves it not stuck |
| Progression.StepProgresses | crates/lenso-project-automation-postgres-plugin/src/storage.rs:961-1034 | Every transaction that does not edit a schedule keeps its progression |
| Progression.RecurringProgression | crates/lenso-project-automation-postgres-plugin/src/storage.rs:989-1028 | From any state in which a rule is armed, not stuck and has nothing left at later slots, and while it is unedited with timers from Jobs only, its next fire is the armed one plus one interval per finished execution, and its executions and dispatches of those slots are exactly the ones up to it |
| Progression.ExecutedSlots | crates/lenso-project-automation-postgres-plugin/src/storage.rs:794-830 | The executed slots are all the earlier ones, each finished, and at most the armed one: none skipped, none repeated |
| Recurrence.ArmedSlotIsLive | crates/lenso-project-automation-postgres-plugin/src/storage.rs:1006-1026 | The armed slot has a live dispatch, and if its timer was received, an unfinished execution owns it |
| Recurrence.RunnableOverRuns | crates/lenso-project-automation-postgres-plugin/src/storage.rs:1003-1026 | In such runs every later dispatch carries the key intake expects, and so does the first unless it has its execution |
| Recurrence.StuckIffStuckFirst | crates/lenso-project-automation-postgres-plugin/src/storage.rs:989-1028 | With nothing left at later slots, an unedited schedule is stuck in a later state if and only if it is stuck now |
| Recurrence.GoesOnIffNotStuckFirst | crates/lenso-project-automation-postgres-plugin/src/storage.rs:989-1028 | From each later state it can be armed anew without an edit if and only if it is not stuck now and there is a next slot |
| Recurrence.ArmedKey | crates/lenso-project-automation-postgres-plugin/src/storage.rs:244-248 | A command that arms a slot with a dispatch keeps its key; for a new slot the key is the one intake expects if and only if the first fire was counted from an aligned instant |
| Recurrence.StuckIffKeyDiffers | crates/lenso-project-automation-postgres-plugin/src/storage.rs:777-779 | At an armed slot whose timer was not received, a rule is stuck if and only if its dispatch carries another key than intake expects |
| Recurrence.StuckIffMisaligned | crates/lenso-project-automation-postgres-plugin/src/storage.rs:203-213 | From a command that arms an unreceived slot with nothing left at later ones, an unedited schedule is stuck if and only if that slot's dispatch carries another key than intake expects; for a new slot, if and only if the instant it was counted from is not aligned |
| Recurrence.NewRulesAreClear | crates/lenso-project-automation-postgres-plugin/src/storage.rs:277-347 | A created rule has nothing left at any slot, and its armed slot is new and unreceived |
| Recurrence.MisalignedScheduleNeverRuns | crates/lenso-project-automation-postgres-plugin/src/storage.rs:210-212 | A new slot counted from an instant that is not aligned is never executed, and the rule stays there until it is edited |
| Collisions.StrandsIffUsedAhead | crates/lenso-project-automation-postgres-plugin/src/storage.rs:231-260 | Some unedited run ends with the rule stuck if and only if it is stuck already, or a slot it would come to has a dispatch or a received timer |
| Collisions.EditStrandsIff | crates/lenso-project-automation-postgres-plugin/src/storage.rs:445-474 | The same told from the tables before a command commits: the slot it arms cannot run, or a slot after it has a dispatch or a received timer |
| Safety.WorldInvariantOverRuns | crates/lenso-project-automation-postgres-plugin/src/lib.rs:825-966 | In every run with workers: claims are genuine, workers pass only applied actions, what is reported as succeeded was applied, and jobs and calls carry stored keys |
| Safety.CallsCarryOneKey | crates/lenso-project-automation-postgres-plugin/src/storage.rs:905-918 | Every call ever made for an action carries the key stored at intake, and no other action has it |
| Safety.RetriesAreSafe | crates/lenso-project-automation-postgres-plugin/src/lib.rs:906-966 | With crashes, lost leases and late requests, no action takes effect twice, and a succeeded execution had all its actions take effect |
| Safety.JobsOfSlotAgree | crates/lenso-project-automation-postgres-plugin/src/lib.rs:1173-1203 | All jobs given for one slot are the same |
| Safety.ArmedSlotReachesJobs | crates/lenso-project-automation-postgres-plugin/src/storage.rs:1044-1069 | The armed slot of a rule is either there for a flush to list, or Jobs has its timer |
| Safety.WorkersHoldGenuineClaims | crates/lenso-project-automation-postgres-plugin/src/storage.rs:880-895 | A worker's claim matches its execution and attempt row in every later state |
| Shape.ReceiptsKeepShape | crates/lenso-project-automation-postgres-plugin/src/lib.rs:912-965 | In lease-respecting runs receipts read succeeded, then at most one failed, then pending; succeeded executions have all succeeded, failed ones exactly one failed, between succeeded and pending ones |
| Shape.SucceededIsNeverCalledAgain | crates/lenso-project-automation-postgres-plugin/src/lib.rs:919-921 | In such runs an action whose receipt says succeeded is never called again |
| Shape.ReceiptsAreNotFenced | crates/lenso-project-automation-postgres-plugin/src/storage.rs:920-932 | Whatever became of the execution, a worker that heard a rejection can overwrite the receipt |
| Shape.RecordingKeepsShapeIff | crates/lenso-project-automation-postgres-plugin/src/storage.rs:920-932 | Recording an outcome keeps the shape of an execution's receipts if and only if its guard holds of the statuses before |
| Shape.StepKeepsShapesIff | crates/lenso-project-automation-postgres-plugin/src/storage.rs:905-1034 | A transaction keeps all receipts in shape if and only if it meets its guard; only recordings and completions have one |
| Shape.ShapesHoldIff | crates/lenso-project-automation-postgres-plugin/src/storage.rs:905-1034 | In every run, all receipts are in shape throughout if and only if every recording and every completion meets its guard |
| Shape.RespectfulMovesMeetGuards | crates/lenso-project-automation-postgres-plugin/src/lib.rs:912-965 | A worker that acts on its current claim meets every guard |
| Turns.CallsAreOfOpenActions | crates/lenso-project-automation-postgres-plugin/src/lib.rs:912-951 | The calls of the first turns are exactly those of the actions among them that had not succeeded and have a target, with their stored keys |
| Turns.CallsAreInOrder | crates/lenso-project-automation-postgres-plugin/src/lib.rs:912 | They come in the order of the actions, each once |
| Turns.TurnsAreMoves | crates/lenso-project-automation-postgres-plugin/src/lib.rs:912-965 | Undisturbed, the moves of a worker on one action make the same call, write the same receipt and end in the same way as one turn of the loop, for every answer |
| Unfenced.StaleWorkersOverwriteReceipts | crates/lenso-project-automation-postgres-plugin/src/storage.rs:920-932 | A run from empty tables that ends with a succeeded execution whose one receipt is failed |
| Delivery.WorldRunsAreRuns | crates/lenso-project-automation-postgres-plugin/src/lib.rs:825-966 | Every run with workers projects, move by move, to a run of the database |
| Delivery.SchedulesProgressInWorldRuns | crates/lenso-project-automation-postgres-plugin/src/lib.rs:1162-1242 | With workers, flushes and Jobs, a schedule whose timers are deliveries of accepted jobs is stuck later if and only if it is stuck now, and else progresses as stated above |
| Storage.Store.ReserveCommand | crates/lenso-project-automation-postgres-plugin/src/storage.rs:74-116 | Inserts a receipt without response or reads the stored one, as specified |
| Storage.Store.CompleteCommand | crates/lenso-project-automation-postgres-plugin/src/storage.rs:118-142 | Completes a reservation exactly if it is there without a response |
| Storage.Store.ReplacePendingSchedule | crates/lenso-project-automation-postgres-plugin/src/storage.rs:231-260 | Both statements together refine the specified replacement |
| Storage.Store.CreateRule | crates/lenso-project-automation-postgres-plugin/src/storage.rs:277-347 | Statement by statement, a creation leaves the tables and the answer the specification says, on every path |
| Storage.Store.UpdateRule | crates/lenso-project-automation-postgres-plugin/src/storage.rs:411-490 | Statement by statement, an update leaves the tables and the answer the specification says, on every path; `Outcomes.CommandWrites` says what those are |
| Storage.Store.SetEnabled | crates/lenso-project-automation-postgres-plugin/src/storage.rs:493-556 | So does enabling or disabling a rule |
| Storage.Store.DeleteRule | crates/lenso-project-automation-postgres-plugin/src/storage.rs:559-617 | So does deleting a rule, although it updates first and looks for the reason afterwards; `Outcomes.DeletedRulesAreGone` says what is left |
| Storage.Store.Handle | crates/lenso-project-automation-postgres-plugin/src/lib.rs:1574-1595 | A validated management operation refines its specification and keeps the invariant |
| Storage.Store.InsertExecution | crates/lenso-project-automation-postgres-plugin/src/storage.rs:649-688 | Inserts an execution with one receipt per action, or finds the one the rule has for the trigger |
| Storage.Store.ReceiveEvent | crates/lenso-project-automation-postgres-plugin/src/storage.rs:710-767 | The loop over event rules makes an execution for exactly the matching ones, or repeats the stored answer |
| Storage.Store.ReceiveTimer | crates/lenso-project-automation-postgres-plugin/src/storage.rs:769-831 | Refines its specification on each of its five ways out |
| Storage.Store.ClaimExecutions | crates/lenso-project-automation-postgres-plugin/src/storage.rs:844-903 | The claim loop claims all picked rows and hands out their claims, or rolls back; `Leasing.LeaseExcludesOthers` says which rows cannot be picked |
| Storage.Store.ActionStatus | crates/lenso-project-automation-postgres-plugin/src/storage.rs:905-918 | Counts an attempt and answers status and key |
| Storage.Store.CompleteAction | crates/lenso-project-automation-postgres-plugin/src/storage.rs:920-932 | Records an outcome without looking at any lease |
| Storage.Store.ReleaseExecution | crates/lenso-project-automation-postgres-plugin/src/storage.rs:934-959 | Returns an execution to pending under its lease, or changes nothing |
| Storage.Store.CompleteExecution | crates/lenso-project-automation-postgres-plugin/src/storage.rs:961-1034 | Ends an execution and advances its schedule, or neither |
| Storage.Store.PendingDispatches | crates/lenso-project-automation-postgres-plugin/src/storage.rs:1044-1069 | The first pending dispatches of an organization by time and, within one instant, by rule, each once, up to the limit |
| Storage.Store.MarkDispatchEnqueued | crates/lenso-project-automation-postgres-plugin/src/storage.rs:1071-1084 | Reports true exactly if it moved the dispatch from pending to enqueued; a cancelled one stays so and notes the job, an enqueued one and all others stay as they are |
| Storage.Store.RecordDispatchFailure | crates/lenso-project-automation-postgres-plugin/src/storage.rs:1086-1094 | Notes a failure on a dispatch that is still pending |
| Storage.Store.PendingDispatchCount | crates/lenso-project-automation-postgres-plugin/src/storage.rs:1096-1102 | Counts the pending dispatches of an organization |
| Reconciling.Plugin.ExecuteActions | crates/lenso-project-automation-postgres-plugin/src/lib.rs:906-966 | The calls made are exactly one, in order and with its stored key, for each action among those reached that had not succeeded and has a target; each answer is on the receipt of its action; done means that all were reached and all receipts are succeeded; otherwise the first refusal or failure ended the loop, the receipts before it are succeeded, those after it untouched, and a refused one failed with that detail |
| Reconciling.Plugin.ExecuteAction | crates/lenso-project-automation-postgres-plugin/src/lib.rs:913-963 | One turn: it makes its call if and only if the receipt has not succeeded and the action has a target, and what is recorded on the receipt, and how the turn ends, is the answer of that call |
| Reconciling.Plugin.FlushSchedules | crates/lenso-project-automation-postgres-plugin/src/lib.rs:1162-1242 | Hands the listed dispatches to Jobs in order; each accepted one is enqueued with the id of its job, and the answer counts them; it fails exactly at the first job not accepted, which is noted with its reason, and no other dispatch changes |
| Reconciling.Plugin.RunBatch | crates/lenso-project-automation-postgres-plugin/src/lib.rs:856-889 | Makes exactly the calls of the turns it took, claim by claim, all turns for those that succeeded; ends claims one by one, with the status and failure their receipts say; at a runtime failure the earlier ones are terminal, that one is pending with a retryable attempt and the reason, and the later ones are still held |
| Reconciling.Plugin.Reconcile | crates/lenso-project-automation-postgres-plugin/src/lib.rs:825-904 | Hands both listings to Jobs, makes exactly the calls of the turns taken for the claims handed out, and without a failure answers exact counts, with succeeded plus failed the claimed ones, at most the limit, all terminal as their receipts say; on any other end each claimed execution is terminal, released, or held under its lease and claimable after it |
| Reconciling.ClaimsAreHeld | crates/lenso-project-automation-postgres-plugin/src/storage.rs:878-895 | A claiming transaction leaves each claim it hands out genuine and held; it fails only on an exhausted counter |
| Reconciling.CompletionRefused | crates/lenso-project-automation-postgres-plugin/src/storage.rs:1003-1012 | A held claim is refused completion only if the next slot of its rule cannot be represented |
| Paging.ReadPage | crates/lenso-project-automation-postgres-plugin/src/storage.rs:374-407 | A page is the next keys in order, with a cursor exactly if more follow; only a text that is no positive numeral is refused |
| Paging.FollowingCursorsListsAll | crates/lenso-project-automation-postgres-plugin/src/storage.rs:395-407 | Following cursors lists every key once and in order, in no more pages than there are keys |
| Paging.ListRules | crates/lenso-project-automation-postgres-plugin/src/storage.rs:367-408 | A page of the live rules of an organization, filtered, by sequence number |
| Paging.RulePagesListAll | crates/lenso-project-automation-postgres-plugin/src/storage.rs:367-408 | All pages together hold each listed rule exactly once |
| Paging.NumbersOverRuns | crates/lenso-project-automation-postgres-plugin/migrations/001_create_project_automation.sql:24 | Sequence numbers stay positive and unique, so cursors parse and rows do not tie |
| Paging.InspectAttempts | crates/lenso-project-automation-postgres-plugin/src/storage.rs:1104-1130 | A page of an execution's attempts, or the error for a bad request or an unknown execution |
| Paging.AttemptPagesListAll | crates/lenso-project-automation-postgres-plugin/src/storage.rs:1113-1130 | All pages together are the attempts from one to the last |
| Paging.AttemptsOverRuns | crates/lenso-project-automation-postgres-plugin/src/storage.rs:875-877 | Attempt numbers never exceed a 32-bit integer |

## Left out

- Actor assertions, membership, callers, secrets, configuration and lifecycle activation: plumbing around the engine.
- The generated capability crate and the agent tools adapter: dispatch, codecs and error mapping; only the vocabulary of triggers, conditions, actions and events is used.
- The contents of calls to Projects, Collaboration and Jobs beyond target, change and key: each answers arbitrarily. The read that precedes a write to Projects carries no key and is not modelled.
- `valid_event` and the handlers of the two intake operations: intake is proved for every event and timer, valid or not.
- JSON, RFC 3339 text, UUID and SHA-256 internals: typed values, instants, and injective constructors. Text that is not a timestamp is kept as such.
- The direction in which the driver rounds an instant to microseconds: down here; no statement depends on it.
- A year outside the range of the stored text, in the local offset of a timestamp: ranges are those of UTC.
- Storage errors that no reachable state raises: unique keys of dispatches, receipts, attempts and executions, a missing command response, a missing rule of a timer that was stored. Connection failures: a transaction that aborts changes nothing, which is the empty run.
- The columns `created_at`, `updated_at`, `started_at` and `completed_at` of other tables than the rules', and the overflow of the attempt counters of receipts and dispatches.
- The order in which executions are claimed and event rules are matched: any order, so everything holds for the one in use.
- Progression.RecurringProgression: assumes that nothing is left at later slots; where something is, `Collisions.StrandsIffUsedAhead` says that the rule can be stranded, and `Stalling.GoesOnIffNotStuck` when it is.
- Reconciling.Plugin.RunBatch: no other worker runs during the batch; with others, `Leasing.ClaimsAreNeverLost` says what can have become of each claim, and `Safety` and `Shape` what holds of its actions.
- Reconciling.Plugin.Reconcile: the same.
- `get_rule` and the action receipts of `inspect_execution`: plain reads.
