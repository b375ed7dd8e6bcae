/** Keyset pagination of rules by sequence number and of attempts by number: what following the cursors adds up to. */
module Paging {
  import opened Results
  import opened Text
  import opened Schedule
  import opened Rules
  import opened Tables
  import opened Transactions
  import opened Invariants
  import opened Preservation
  import opened Runs
  import opened Frames
  import opened History
  import opened Effects
  import opened CommandLaws
  import opened Storage

  datatype Page<T> = Page(items: seq<T>, cursor: Option<string>)

  // ----- rows in key order -----

  predicate Ascends(rows: seq<int>) {
    forall i, j :: 0 <= i < j < |rows| ==> rows[i] < rows[j]
  }

  function Elements(rows: seq<int>): set<int> {
    set k | k in rows
  }

  /** The rows are these keys, each once, in order. */
  ghost predicate Lists(keys: set<int>, rows: seq<int>) {
    Ascends(rows) && Elements(rows) == keys
  }

  function Above(keys: set<int>, after: int): set<int> {
    set k | k in keys && k > after
  }

  function Below(keys: set<int>, most: int): set<int> {
    set k | k in keys && k <= most
  }

  lemma HasElement(keys: set<int>)
    requires keys != {}
    ensures exists k :: k in keys
  {
    if forall k :: k !in keys {
      assert false;
    }
  }

  /** The least of a non-empty table's keys. */
  method Least(keys: set<int>) returns (least: int)
    requires keys != {}
    ensures least in keys && forall k :: k in keys ==> least <= k
  {
    HasElement(keys);
    least :| least in keys;
    var left := keys - {least};
    while left != {}
      invariant least in keys && left <= keys
      invariant forall k :: k in keys && k !in left ==> least <= k
      decreases |left|
    {
      HasElement(left);
      var k :| k in left;
      if k < least {
        least := k;
      }
      left := left - {k};
    }
  }

  /** The first rows of a query in key order, up to a limit. */
  ghost predicate FirstRows(keys: set<int>, rows: seq<int>, most: nat) {
    && Ascends(rows) && |rows| <= most && Elements(rows) <= keys
    && (forall k :: k in keys && k !in rows ==> |rows| == most && forall i :: 0 <= i < |rows| ==> rows[i] < k)
  }

  method Select(keys: set<int>, after: int, most: nat) returns (rows: seq<int>)
    ensures FirstRows(Above(keys, after), rows, most)
  {
    var left := Above(keys, after);
    rows := [];
    while |rows| < most && left != {}
      invariant |rows| <= most && Ascends(rows) && left <= Above(keys, after)
      invariant forall k :: k in Above(keys, after) <==> k in left || k in rows
      invariant forall i, k :: 0 <= i < |rows| && k in left ==> rows[i] < k
      decreases |left|
    {
      var k := Least(left);
      rows := rows + [k];
      left := left - {k};
    }
  }

  // ----- pages -----

  /** A page keeps `limit` of the `limit + 1` rows it fetched; the last one kept is the cursor if there were more. */
  function PageOf(rows: seq<int>, limit: nat): Page<int> {
    var kept := if limit < |rows| then limit else |rows|;
    Page(rows[..kept],
         if |rows| > limit then if 0 < kept then Some(Decimal(rows[kept - 1])) else if 0 < |rows| then Some(Decimal(rows[0])) else None else None)
  }

  method ReadPage(keys: set<int>, cursor: Option<string>, limit: nat) returns (reply: Result<Page<int>>)
    requires 1 <= limit && forall k :: k in keys ==> 0 < k <= I64_MAX
    ensures reply.Err? <==> BadCursor(cursor)
    ensures reply.Err? ==> reply.failure == InvalidRequest
    ensures reply.Ok? ==> IsPage(keys, AfterCursor(cursor), limit, reply.value)
  {
    hide ParseRevision, Decimal, FirstRows;
    var after := 0;
    if cursor.Some? {
      var parsed := ParseRevision(cursor.value);
      CursorIsBad(cursor);
      if parsed.Err? {
        return Err(InvalidRequest);
      }
      after := parsed.value;
    }
    var rows := Select(keys, after, limit + 1);
    PageOfRows(keys, after, rows, limit);
    return Ok(PageOf(rows, limit));
  }

  function AfterCursor(cursor: Option<string>): int {
    if cursor.None? then 0 else match ParseRevision(cursor.value) case Ok(n) => n case Err(_) => 0
  }

  /** The next `limit` keys after one, in order, and a cursor exactly if there are still more. */
  ghost predicate IsPage(keys: set<int>, after: int, limit: nat, page: Page<int>) {
    && |page.items| <= limit
    && if page.cursor.None? then Lists(Above(keys, after), page.items)
       else && page.items != [] && page.cursor == Some(Decimal(page.items[|page.items| - 1]))
            && Lists(Above(Below(keys, page.items[|page.items| - 1]), after), page.items)
            && Above(keys, page.items[|page.items| - 1]) != {}
  }

  lemma PageOfRows(keys: set<int>, after: int, rows: seq<int>, limit: nat)
    requires 1 <= limit && FirstRows(Above(keys, after), rows, limit + 1)
    ensures IsPage(keys, after, limit, PageOf(rows, limit))
  {
    hide Decimal;
    var page := PageOf(rows, limit);
    if |rows| > limit {
      var last := rows[limit - 1];
      assert page.items[limit - 1] == last && rows[limit] in Elements(rows) && rows[limit] in Above(keys, last);
      forall k ensures k in page.items <==> k in Above(Below(keys, last), after) {
        if k in page.items {
          var i :| 0 <= i < limit && page.items[i] == k;
          assert rows[i] == k && rows[i] in Elements(rows);
        }
        if k in Above(Below(keys, last), after) {
          assert k in rows;
          var i :| 0 <= i < |rows| && rows[i] == k;
          assert i < limit;
          assert page.items[i] == k;
        }
      }
    } else {
      assert page.items == rows;
    }
  }

  // ----- following the cursors -----

  /** Pages read one after the other from some key on, each from the cursor of the one before. */
  ghost predicate Chain(keys: set<int>, after: int, pages: seq<Page<int>>, limit: nat)
    decreases |pages|
  {
    && pages != [] && IsPage(keys, after, limit, pages[0])
    && (|pages| > 1 ==> pages[0].cursor.Some? && Chain(keys, AfterCursor(pages[0].cursor), pages[1..], limit))
  }

  function Concatenated(pages: seq<Page<int>>): seq<int> {
    if pages == [] then [] else pages[0].items + Concatenated(pages[1..])
  }

  lemma CursorOfPage(keys: set<int>, after: int, limit: nat, page: Page<int>)
    requires IsPage(keys, after, limit, page) && page.cursor.Some? && forall k :: k in keys ==> 0 < k <= I64_MAX
    ensures var last := page.items[|page.items| - 1]; last in keys && last > after && AfterCursor(page.cursor) == last
  {
    hide Decimal, ParseRevision;
    var last := page.items[|page.items| - 1];
    assert last in page.items && last in Elements(page.items);
    RevisionTextIsCanonical(page.cursor.value, last);
  }

  lemma ListsExtend(low: set<int>, high: set<int>, a: seq<int>, b: seq<int>)
    requires Lists(low, a) && Lists(high, b) && forall m, n :: m in low && n in high ==> m < n
    ensures Lists(low + high, a + b)
  {
    forall i, j | 0 <= i < j < |a + b| ensures (a + b)[i] < (a + b)[j] {
      if i < |a| <= j {
        assert a[i] in Elements(a) && b[j - |a|] in Elements(b);
      }
    }
    forall k ensures k in a + b <==> k in low + high {
      assert k in a <==> k in Elements(a);
      assert k in b <==> k in Elements(b);
    }
  }

  /** A chain that has come to its end lists exactly the keys after its start, each once and in order; whatever it
      is, it has no more pages than there are keys, so following the cursors ends. */
  lemma {:induction false} FollowingCursorsListsAll(keys: set<int>, after: int, pages: seq<Page<int>>, limit: nat)
    requires Chain(keys, after, pages, limit) && forall k :: k in keys ==> 0 < k <= I64_MAX
    ensures pages[|pages| - 1].cursor.None? ==> Lists(Above(keys, after), Concatenated(pages))
    ensures |pages| == 1 || |pages| <= |Above(keys, after)|
    decreases |pages|
  {
    hide AfterCursor, Decimal, Lists, IsPage;
    assert pages == [pages[0]] + pages[1..];
    if |pages| > 1 {
      var page, rest := pages[0], pages[1..];
      NextPage(keys, after, limit, page, Concatenated(rest));
      FollowingCursorsListsAll(keys, AfterCursor(page.cursor), rest, limit);
    } else {
      OnlyPage(keys, after, limit, pages[0]);
      assert pages[1..] == [] && pages[0].items + [] == pages[0].items;
    }
  }

  lemma OnlyPage(keys: set<int>, after: int, limit: nat, page: Page<int>)
    requires IsPage(keys, after, limit, page)
    ensures page.cursor.None? ==> Lists(Above(keys, after), page.items)
  {
  }

  lemma NextPage(keys: set<int>, after: int, limit: nat, page: Page<int>, rest: seq<int>)
    requires IsPage(keys, after, limit, page) && page.cursor.Some? && forall k :: k in keys ==> 0 < k <= I64_MAX
    ensures var cursor := AfterCursor(page.cursor);
            && |Above(keys, cursor)| < |Above(keys, after)| && |Above(keys, cursor)| > 0
            && (Lists(Above(keys, cursor), rest) ==> Lists(Above(keys, after), page.items + rest))
  {
    hide AfterCursor, Decimal, Lists;
    CursorOfPage(keys, after, limit, page);
    var cursor := AfterCursor(page.cursor);
    var low, high := Above(Below(keys, cursor), after), Above(keys, cursor);
    assert low + high == Above(keys, after);
    assert cursor in low && cursor !in high;
    assert high + {cursor} <= Above(keys, after);
    Smaller(high, Above(keys, after), cursor);
    if Lists(high, rest) {
      ListsExtend(low, high, page.items, rest);
    }
  }

  lemma Smaller(a: set<int>, b: set<int>, k: int)
    requires a <= b && k in b && k !in a
    ensures |a| < |b|
  {
    assert a <= b - {k};
    Subset(a, b - {k});
  }

  lemma {:induction false} Subset(a: set<int>, b: set<int>)
    requires a <= b
    ensures |a| <= |b|
  {
    if a != {} {
      HasElement(a);
      var k :| k in a;
      Subset(a - {k}, b - {k});
    }
  }

  // ----- rules -----

  predicate Listed(rule: Rule, organizationId: string, enabled: Option<bool>) {
    rule.organizationId == organizationId && rule.Live() && (enabled.Some? ==> rule.enabled == enabled.value)
  }

  function RuleKeys(rules: RuleTable, organizationId: string, enabled: Option<bool>): set<int> {
    set r | r in rules && Listed(rules[r], organizationId, enabled) :: rules[r].rowSeq
  }

  /** Sequence numbers are positive and unique. */
  ghost predicate Numbered(rules: RuleTable) {
    && (forall r :: r in rules ==> 0 < rules[r].rowSeq <= I64_MAX)
    && (forall r, q :: r in rules && q in rules && rules[r].rowSeq == rules[q].rowSeq ==> r == q)
  }

  lemma StepKeepsNumbers(db: Db, op: Op)
    requires Enabled(db, op) && Numbered(db.rules)
    requires Inv(db)
    ensures Numbered(Apply(db, op).rules)
  {
    hide Inv, Apply, Enabled, ExecutionsLater, AttemptsLater, ReceiptsLater, DispatchesLater, Kept;
    StepIsLater(db, op);
    var after := Apply(db, op).rules;
    forall r | r in db.rules ensures after[r].rowSeq == db.rules[r].rowSeq {
      assert RuleLater(db.rules[r], after[r]);
    }
    forall r | r in after && r !in db.rules
      ensures op.ManageOp? && r == op.request.ruleId && after[r].rowSeq == op.rowSeq && 0 < op.rowSeq <= I64_MAX
      ensures forall q :: q in db.rules ==> db.rules[q].rowSeq != op.rowSeq
    {
      NewRuleNumber(db, op, r);
    }
  }

  lemma NewRuleNumber(db: Db, op: Op, r: string)
    requires Enabled(db, op) && r in Apply(db, op).rules && r !in db.rules
    ensures op.ManageOp? && r == op.request.ruleId && Apply(db, op).rules[r].rowSeq == op.rowSeq
    ensures 0 < op.rowSeq <= I64_MAX && forall q :: q in db.rules ==> db.rules[q].rowSeq != op.rowSeq
  {
    hide ReceiveEvent, ReceiveTimer, CompleteExecution, ReleaseExecution, ClaimExecutions, PickedRows, MatchedRows,
         ReplacePendingSchedule, ValidRequest, InitialNextFire;
    if op.CompleteOp? {
      CompletionKeepsRevisions(db, op.claim, op.succeeded, op.failure, op.now, r);
    } else if !op.ManageOp? {
      OnlyCommandsAndAdvancesWriteRules(db, op);
    }
  }

  lemma {:induction false} NumbersOverRuns(states: seq<Db>, ops: seq<Op>, i: nat)
    requires Run(states, ops) && i < |states| && states[0] == EMPTY
    ensures Numbered(states[i].rules)
  {
    hide Inv, Enabled, Apply;
    if i > 0 {
      NumbersOverRuns(states, ops, i - 1);
      InvariantOverRuns(states, ops, i - 1);
      StepKeepsNumbers(states[i - 1], ops[i - 1]);
    }
  }

  /** `list_rules`, with the limits its operation allows. */
  method ListRules(store: Store, organizationId: string, enabled: Option<bool>, limit: int, cursor: Option<string>)
    returns (reply: Result<Page<string>>, ghost numbers: seq<int>)
    requires Numbered(store.rules)
    ensures reply.Err? <==> !ValidId(organizationId) || !(1 <= limit <= 100) || BadCursor(cursor)
    ensures reply.Ok? ==>
              && IsPage(RuleKeys(store.rules, organizationId, enabled), AfterCursor(cursor), limit, Page(numbers, reply.value.cursor))
              && AreRules(store.rules, organizationId, enabled, numbers, reply.value.items)
  {
    hide ParseRevision, IsPage, ValidId;
    numbers := [];
    if !ValidId(organizationId) || !(1 <= limit <= 100) {
      return Err(InvalidRequest), numbers;
    }
    var keys := RuleKeys(store.rules, organizationId, enabled);
    var read := ReadPage(keys, cursor, limit);
    if read.Err? {
      return Err(InvalidRequest), numbers;
    }
    IsPageKeys(keys, AfterCursor(cursor), limit, read.value);
    var rows := read.value.items;
    numbers := rows;
    var items: seq<string> := [];
    for i := 0 to |rows|
      invariant AreRules(store.rules, organizationId, enabled, rows[..i], items)
    {
      assert rows[i] in keys;
      var r :| r in store.rules && Listed(store.rules[r], organizationId, enabled) && store.rules[r].rowSeq == rows[i];
      items := items + [r];
    }
    assert rows[..|rows|] == rows;
    reply := Ok(Page(items, read.value.cursor));
  }

  /** The rules with these sequence numbers, in this order. */
  ghost predicate AreRules(rules: RuleTable, organizationId: string, enabled: Option<bool>, numbers: seq<int>,
                           items: seq<string>) {
    && |items| == |numbers|
    && forall i :: 0 <= i < |items| ==> items[i] in rules && Listed(rules[items[i]], organizationId, enabled) && rules[items[i]].rowSeq == numbers[i]
  }

  lemma IsPageKeys(keys: set<int>, after: int, limit: nat, page: Page<int>)
    requires IsPage(keys, after, limit, page)
    ensures forall i :: 0 <= i < |page.items| ==> page.items[i] in keys
  {
    forall i | 0 <= i < |page.items| ensures page.items[i] in keys {
      assert page.items[i] in Elements(page.items);
    }
  }

  /** All pages of a listing together hold every listed rule exactly once. */
  lemma RulePagesListAll(rules: RuleTable, organizationId: string, enabled: Option<bool>, pages: seq<Page<int>>, limit: nat,
                         items: seq<string>, r: string)
    requires Numbered(rules) && Chain(RuleKeys(rules, organizationId, enabled), 0, pages, limit) && pages[|pages| - 1].cursor.None?
    requires AreRules(rules, organizationId, enabled, Concatenated(pages), items)
    ensures r in items <==> r in rules && Listed(rules[r], organizationId, enabled)
    ensures forall i, j :: 0 <= i < j < |items| ==> items[i] != items[j] && rules[items[i]].rowSeq < rules[items[j]].rowSeq
  {
    hide Chain, Concatenated;
    var keys := RuleKeys(rules, organizationId, enabled);
    FollowingCursorsListsAll(keys, 0, pages, limit);
    var rows := Concatenated(pages);
    if r in rules && Listed(rules[r], organizationId, enabled) {
      assert rules[r].rowSeq in keys && rules[r].rowSeq in Above(keys, 0) && rules[r].rowSeq in Elements(rows);
      var i :| 0 <= i < |rows| && rows[i] == rules[r].rowSeq;
      assert items[i] == r;
    }
  }

  // ----- attempts -----

  function AttemptKeys(attempts: Attempts, executionId: string): set<int> {
    set k | k in attempts && k.0 == executionId :: k.1
  }

  /** Attempt numbers stay within their column. */
  ghost predicate Countable(executions: Executions) {
    forall e :: e in executions ==> executions[e].attempts <= I32_MAX
  }

  lemma StepKeepsCountable(db: Db, op: Op)
    requires Enabled(db, op) && Countable(db.executions)
    requires Inv(db)
    ensures Countable(Apply(db, op).executions)
  {
    hide Inv, Apply, Enabled, HoldsLease;
    forall e | e in Apply(db, op).executions ensures Apply(db, op).executions[e].attempts <= I32_MAX {
      StepMovesExecution(db, op, e);
      if op.ClaimOp? && e in op.picked && e in db.executions && db.executions[e].attempts == I32_MAX {
        ClaimChecksCounter(db, op, e);
      }
    }
  }

  lemma ClaimChecksCounter(db: Db, op: Op, e: string)
    requires Enabled(db, op) && op.ClaimOp? && e in op.picked && e in db.executions && db.executions[e].attempts == I32_MAX
    ensures Apply(db, op) == db
  {
    hide ClaimAll, Distinct;
  }

  lemma {:induction false} AttemptsOverRuns(states: seq<Db>, ops: seq<Op>, i: nat)
    requires Run(states, ops) && i < |states| && states[0] == EMPTY
    ensures Countable(states[i].executions)
  {
    hide Inv, Enabled, Apply;
    if i > 0 {
      AttemptsOverRuns(states, ops, i - 1);
      InvariantOverRuns(states, ops, i - 1);
      StepKeepsCountable(states[i - 1], ops[i - 1]);
    }
  }

  /** The attempt receipts of `inspect_execution`. */
  method InspectAttempts(store: Store, organizationId: string, executionId: string, limit: int, cursor: Option<string>)
    returns (reply: Result<Page<int>>)
    requires store.Valid() && Countable(store.executions)
    ensures reply == Err(InvalidRequest) <==> !ValidId(organizationId) || !(1 <= limit <= 100) || BadCursor(cursor)
    ensures reply == Err(NotFound) <==>
              && ValidId(organizationId) && 1 <= limit <= 100 && !BadCursor(cursor)
              && (executionId !in store.executions || store.executions[executionId].organizationId != organizationId)
    ensures reply.Ok? ==> IsPage(AttemptKeys(store.attempts, executionId), AfterCursor(cursor), limit, reply.value)
    ensures reply.Err? ==> reply == Err(InvalidRequest) || reply == Err(NotFound)
  {
    hide Inv, ParseRevision, IsPage, ValidId, Decimal;
    if !ValidId(organizationId) || !(1 <= limit <= 100) || (cursor.Some? && ParseRevision(cursor.value).Err?) {
      CursorIsBad(cursor);
      return Err(InvalidRequest);
    }
    CursorIsBad(cursor);
    if executionId !in store.executions || store.executions[executionId].organizationId != organizationId {
      return Err(NotFound);
    }
    AttemptKeysAre(store.View(), executionId);
    reply := ReadPage(AttemptKeys(store.attempts, executionId), cursor, limit);
  }

  ghost predicate BadCursor(cursor: Option<string>) {
    cursor.Some? && forall n :: 0 < n <= I64_MAX ==> cursor.value != Decimal(n)
  }

  lemma CursorIsBad(cursor: Option<string>)
    ensures BadCursor(cursor) <==> cursor.Some? && ParseRevision(cursor.value).Err?
  {
    hide ParseRevision, Decimal;
    if cursor.Some? {
      forall n ensures ParseRevision(cursor.value) == Ok(n) <==> 0 < n <= I64_MAX && cursor.value == Decimal(n) {
        RevisionTextIsCanonical(cursor.value, n);
      }
      match ParseRevision(cursor.value)
      case Ok(n) => assert cursor.value == Decimal(n);
      case Err(_) =>
    }
  }

  lemma AttemptKeysAre(db: Db, executionId: string)
    requires executionId in db.executions
    requires Inv(db)
    ensures forall n :: n in AttemptKeys(db.attempts, executionId) <==> 1 <= n <= db.executions[executionId].attempts
  {
    hide References, Ledger, DispatchKeys, TriggersOk, IntakeOk, ReceiptsOk, CommandsOk, NamesOk, RulesValid, SnapshotsValid;
    assert LeaseOk(executionId, db.executions[executionId], db.attempts);
    forall n ensures n in AttemptKeys(db.attempts, executionId) <==> (executionId, n) in db.attempts {
    }
  }

  lemma {:induction false} Consecutive(rows: seq<int>, n: nat)
    requires Ascends(rows) && forall k :: k in rows <==> 1 <= k <= n
    ensures |rows| == n && forall i :: 0 <= i < n ==> rows[i] == i + 1
  {
    assert |rows| > 0 ==> rows[0] in rows;
    if n > 0 {
      assert n in rows;
      var i :| 0 <= i < |rows| && rows[i] == n;
      assert rows[|rows| - 1] in rows;
      assert i == |rows| - 1;
      var earlier := rows[..|rows| - 1];
      forall k ensures k in earlier <==> 1 <= k <= n - 1 {
        if 1 <= k <= n - 1 {
          assert k in rows;
          var j :| 0 <= j < |rows| && rows[j] == k;
          assert earlier[j] == k;
        }
      }
      Consecutive(earlier, n - 1);
    }
  }

  /** All pages of an execution's attempts together are its attempts, from the first to the last. */
  lemma AttemptPagesListAll(db: Db, executionId: string, pages: seq<Page<int>>, limit: nat)
    requires executionId in db.executions && Countable(db.executions)
    requires Chain(AttemptKeys(db.attempts, executionId), 0, pages, limit) && pages[|pages| - 1].cursor.None?
    requires Inv(db)
    ensures |Concatenated(pages)| == db.executions[executionId].attempts
    ensures forall i :: 0 <= i < |Concatenated(pages)| ==> Concatenated(pages)[i] == i + 1
  {
    hide Inv, Chain, Concatenated;
    var keys := AttemptKeys(db.attempts, executionId);
    AttemptKeysAre(db, executionId);
    FollowingCursorsListsAll(keys, 0, pages, limit);
    var rows := Concatenated(pages);
    forall k ensures k in rows <==> 1 <= k <= db.executions[executionId].attempts {
      assert k in rows <==> k in Elements(rows);
      assert k in Above(keys, 0) <==> k in keys;
    }
    NonNegativeAttempts(db, executionId);
    Consecutive(rows, db.executions[executionId].attempts);
  }

  lemma NonNegativeAttempts(db: Db, executionId: string)
    requires executionId in db.executions
    requires Inv(db)
    ensures db.executions[executionId].attempts >= 0
  {
    hide References, Ledger, DispatchKeys, TriggersOk, IntakeOk, ReceiptsOk, CommandsOk, NamesOk, RulesValid, SnapshotsValid;
    assert LeaseOk(executionId, db.executions[executionId], db.attempts);
  }
}
