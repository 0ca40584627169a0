/** The totals in the database against what the connections settled, over whole runs. */
module BillingLedger {
  import opened Stores
  import opened Registry
  import opened Soundness
  import opened Totals
  import opened Frames
  import Scope
  import opened Billing
  import opened BillingSafety

  // ---------- sums ----------

  ghost function DaySum(daily: map<string, int>): int
    decreases |daily|
  {
    if daily == map[] then 0
    else
      var d :| d in daily;
      daily[d] + DaySum(daily - {d})
  }

  lemma {:induction false} DaySumRemove(daily: map<string, int>, d: string)
    requires d in daily
    ensures DaySum(daily) == daily[d] + DaySum(daily - {d})
    decreases |daily|
  {
    var x :| x in daily && DaySum(daily) == daily[x] + DaySum(daily - {x});
    if x != d {
      DaySumRemove(daily - {x}, d);
      DaySumRemove(daily - {d}, x);
      assert daily - {x} - {d} == daily - {d} - {x};
    }
  }

  lemma DaySumAdd(daily: map<string, int>, d: string, n: int)
    ensures DaySum(daily[d := DayBytes(daily, d) + n]) == DaySum(daily) + n
  {
    var daily' := daily[d := DayBytes(daily, d) + n];
    DaySumRemove(daily', d);
    if d in daily {
      DaySumRemove(daily, d);
      assert daily' - {d} == daily - {d};
    } else {
      assert daily' - {d} == daily;
    }
  }

  ghost predicate Matches(c: Conn, k: Key) {
    match k
    case ByRule(id) => c.rule == id
    case ByUser(id) => c.user == id
    case ByGroup(id) => c.group == id
  }

  /** Bytes settled by the connections of one rule, user or group. */
  ghost function SettledFor(conns: seq<Conn>, k: Key): int {
    if conns == [] then 0
    else
      var c := conns[|conns| - 1];
      SettledFor(conns[..|conns| - 1], k) + (if Matches(c, k) then c.book.settled else 0)
  }

  lemma {:induction false} SettledForUpdate(conns: seq<Conn>, i: nat, x: Conn, k: Key)
    requires i < |conns| && x.rule == conns[i].rule && x.user == conns[i].user && x.group == conns[i].group
    ensures SettledFor(conns[i := x], k)
         == SettledFor(conns, k) + (if Matches(x, k) then x.book.settled - conns[i].book.settled else 0)
  {
    var n := |conns| - 1;
    if i < n {
      SettledForUpdate(conns[..n], i, x, k);
      assert conns[i := x][..n] == conns[..n][i := x];
    } else {
      assert conns[i := x][..n] == conns[..n];
    }
  }

  lemma {:induction false} NothingSettledFor(conns: seq<Conn>, k: Key)
    requires forall c :: 0 <= c < |conns| ==> !Matches(conns[c], k)
    ensures SettledFor(conns, k) == 0
  {
    if conns != [] { NothingSettledFor(conns[..|conns| - 1], k); }
  }

  // ---------- the invariant on the database ----------

  function KeyNo(k: Key): int { k.id }

  ghost predicate Known(top: int, rule: int, user: int, group: int) {
    rule <= top && user <= top && group <= top
  }

  /** Connections and admissions only name things that exist or once existed. */
  ghost predicate NamesOk(s: State) {
    && (forall c :: 0 <= c < |s.conns| ==> Known(s.db.seqNo, s.conns[c].rule, s.conns[c].user, s.conns[c].group))
    && (forall t :: 0 <= t < |s.tasks| && s.tasks[t].Admitted? ==>
          Known(s.db.seqNo, s.tasks[t].rule, s.tasks[t].user, s.tasks[t].group))
    && (forall k :: KeyNo(k) > s.db.seqNo ==> s.cleared(k) == 0)
  }

  /** Each total, plus what resets took from it, is what its connections settled. */
  ghost predicate LedgerOk(s: State) {
    forall k :: TotalOf(s.db, k).Some? ==> TotalOf(s.db, k).value + s.cleared(k) == SettledFor(s.conns, k)
  }

  ghost predicate Books(s: State, base: int) {
    && Started(s.db) && NamesOk(s) && LedgerOk(s)
    && DaySum(s.db.daily) == base + s.settled
  }

  /** A start of the program: no connection, no thread, and totals carried over from the database file. */
  ghost predicate Init(s: State, base: int) {
    && Started(s.db) && s.conns == [] && s.tasks == [] && !s.locked && s.settled == 0
    && DaySum(s.db.daily) == base
    && (forall k :: s.cleared(k) == -Total0(s.db, k))
  }

  lemma ExistingKeyIsLow(db: DB, k: Key)
    requires Started(db) && TotalOf(db, k).Some?
    ensures 1 <= KeyNo(k) <= db.seqNo
  {
  }

  lemma InitIsGood(s: State, base: int)
    requires Init(s, base)
    ensures Threads(s) && Books(s, base)
  {
  }

  // ---------- settlement ----------

  lemma SettleTotal(db: DB, rule: int, user: int, group: int, n: nat, today: string, k: Key)
    requires TotalOf(Settle(db, rule, user, group, n, today), k).Some?
    ensures TotalOf(db, k).Some?
    ensures TotalOf(Settle(db, rule, user, group, n, today), k).value
         == TotalOf(db, k).value + (if k == ByRule(rule) || k == ByUser(user) || k == ByGroup(group) then n else 0)
  {
    hide RuleIdx, UserIdx, GroupIdx;
    var db' := Settle(db, rule, user, group, n, today);
    if n > 0 {
      match k
      case ByRule(id) =>
        var i, j := RuleIdx(db'.rules, id), RuleIdx(db.rules, id);
        assert i < |db.rules| && db.rules[i].id == id && db'.rules[j].id == id;
      case ByUser(id) =>
        var i, j := UserIdx(db'.users, id), UserIdx(db.users, id);
        assert i < |db.users| && db.users[i].id == id && db'.users[j].id == id;
      case ByGroup(id) =>
        var i, j := GroupIdx(db'.groups, id), GroupIdx(db.groups, id);
        assert i < |db.groups| && db.groups[i].id == id && db'.groups[j].id == id;
    }
  }

  lemma SettleKeepsStarted(db: DB, rule: int, user: int, group: int, n: nat, today: string)
    requires Started(db)
    ensures Started(Settle(db, rule, user, group, n, today))
  {
    SettleKeeps(db, rule, user, group, n, today);
    TotalsDoNotMatter(db, Settle(db, rule, user, group, n, today));
  }

  lemma LedgerAfterSettle(s: State, i: nat, x: Conn, n: nat, today: string, key: Key)
    requires LedgerOk(s) && i < |s.conns|
    requires x.rule == s.conns[i].rule && x.user == s.conns[i].user && x.group == s.conns[i].group
    requires x.book.settled == s.conns[i].book.settled + n
    requires TotalOf(Settle(s.db, x.rule, x.user, x.group, n, today), key).Some?
    ensures TotalOf(Settle(s.db, x.rule, x.user, x.group, n, today), key).value + s.cleared(key)
         == SettledFor(s.conns[i := x], key)
  {
    SettleTotal(s.db, x.rule, x.user, x.group, n, today, key);
    SettledForUpdate(s.conns, i, x, key);
    assert Matches(x, key) <==> key == ByRule(x.rule) || key == ByUser(x.user) || key == ByGroup(x.group);
  }

  lemma SettleKeepsIds(db: DB, rule: int, user: int, group: int, n: nat, today: string)
    ensures Settle(db, rule, user, group, n, today).seqNo == db.seqNo
    ensures DaySum(Settle(db, rule, user, group, n, today).daily) == DaySum(db.daily) + n
  {
    DaySumAdd(db.daily, today, n);
  }

  /** What an account step does: connection `i` settles `n` bytes. */
  ghost predicate Accounts(s: State, s': State, i: nat, n: nat, today: string) {
    && i < |s.conns| && |s'.conns| == |s.conns|
    && s'.conns == s.conns[i := s'.conns[i]]
    && s'.conns[i] == s.conns[i].(book := s'.conns[i].book) && s'.conns[i].book.settled == s.conns[i].book.settled + n
    && s'.db == Settle(s.db, s.conns[i].rule, s.conns[i].user, s.conns[i].group, n, today)
    && s'.settled == s.settled + n && s'.cleared == s.cleared
    && (forall t :: 0 <= t < |s'.tasks| && s'.tasks[t].Admitted? ==> t < |s.tasks| && s'.tasks[t] == s.tasks[t])
  }

  lemma AccountIs(s: State, e: Event) returns (i: nat, n: nat)
    requires TasksOk(s) && Enabled(s, e) && e.Account?
    ensures var k := s.tasks[e.t]; k.queue != [] && i == k.queue[0] && n == Or0(k.up) + Or0(k.down)
    ensures Accounts(s, Next(s, e), i, n, e.today)
  {
    assert TaskOk(s.conns, s.tasks[e.t]);
    var k := s.tasks[e.t];
    i, n := k.queue[0], Or0(k.up) + Or0(k.down);
  }

  lemma AccountKeepsBooks(s: State, s': State, i: nat, n: nat, today: string, base: int)
    requires Books(s, base) && Accounts(s, s', i, n, today)
    ensures Books(s', base)
  {
    var c := s.conns[i];
    SettleKeepsStarted(s.db, c.rule, c.user, c.group, n, today);
    SettleKeepsIds(s.db, c.rule, c.user, c.group, n, today);
    forall key | TotalOf(s'.db, key).Some?
      ensures TotalOf(s'.db, key).value + s'.cleared(key) == SettledFor(s'.conns, key)
    {
      LedgerAfterSettle(s, i, s'.conns[i], n, today, key);
    }
  }

  // ---------- requests ----------

  lemma FrameRuleTotal(db: DB, db': DB, own: bool, id: int)
    requires Started(db) && RulesFrame(db.rules, db'.rules, db.seqNo, own) && TotalOf(db', ByRule(id)).Some?
    ensures if TotalOf(db, ByRule(id)).Some? then TotalOf(db', ByRule(id)) == TotalOf(db, ByRule(id))
            else id > db.seqNo && TotalOf(db', ByRule(id)).value == 0
  {
    hide RuleIdx;
    var i, j := RuleIdx(db.rules, id), RuleIdx(db'.rules, id);
    assert db'.rules[j] in db'.rules;
    if i < |db.rules| { assert db.rules[i] in db.rules; }
  }

  lemma FrameUserTotal(db: DB, db': DB, own: bool, id: int)
    requires Started(db) && UsersFrame(db.users, db'.users, db.seqNo, own) && TotalOf(db', ByUser(id)).Some?
    ensures if TotalOf(db, ByUser(id)).Some? then TotalOf(db', ByUser(id)) == TotalOf(db, ByUser(id))
            else id > db.seqNo && TotalOf(db', ByUser(id)).value == 0
  {
    hide UserIdx;
    var i, j := UserIdx(db.users, id), UserIdx(db'.users, id);
    assert db'.users[j] in db'.users;
    if i < |db.users| { assert db.users[i] in db.users; }
  }

  lemma FrameGroupTotal(db: DB, db': DB, id: int)
    requires Started(db) && GroupsFrame(db.groups, db'.groups, db.seqNo) && TotalOf(db', ByGroup(id)).Some?
    ensures if TotalOf(db, ByGroup(id)).Some? then TotalOf(db', ByGroup(id)) == TotalOf(db, ByGroup(id))
            else id > db.seqNo && TotalOf(db', ByGroup(id)).value == 0
  {
    hide GroupIdx;
    var i, j := GroupIdx(db.groups, id), GroupIdx(db'.groups, id);
    assert db'.groups[j] in db'.groups;
    if i < |db.groups| { assert db.groups[i] in db.groups; }
  }

  /** What exists after a framed change either existed with the same total or is new and empty. */
  lemma FrameTotal(db: DB, db': DB, own: bool, k: Key)
    requires Started(db) && Frame(db, db', own) && TotalOf(db', k).Some?
    ensures if TotalOf(db, k).Some? then TotalOf(db', k) == TotalOf(db, k)
            else KeyNo(k) > db.seqNo && TotalOf(db', k).value == 0
  {
    match k
    case ByRule(id) => FrameRuleTotal(db, db', own, id);
    case ByUser(id) => FrameUserTotal(db, db', own, id);
    case ByGroup(id) => FrameGroupTotal(db, db', id);
  }

  lemma UnknownKeySettledNothing(s: State, k: Key)
    requires NamesOk(s) && KeyNo(k) > s.db.seqNo
    ensures SettledFor(s.conns, k) == 0
  {
    NothingSettledFor(s.conns, k);
  }

  lemma RequestBooks(s: State, r: Request, base: int)
    requires Books(s, base) && !r.ResetUserTotals? && !r.ResetGroupTotals?
    ensures Books(ServeRequest(s, r), base)
  {
    var s' := ServeRequest(s, r);
    RequestIsSound(s.db, r);
    RequestFrame(s.db, r);
    forall k | TotalOf(s'.db, k).Some? ensures TotalOf(s'.db, k).value + s'.cleared(k) == SettledFor(s'.conns, k) {
      FrameTotal(s.db, s'.db, !Moves(s.db, r), k);
      if TotalOf(s.db, k).None? { UnknownKeySettledNothing(s, k); }
    }
  }

  lemma UserResetTotal(db: DB, user: int, k: Key)
    requires Started(db) && TotalOf(ResetUser(db, user), k).Some?
    ensures TotalOf(db, k).Some?
    ensures TotalOf(ResetUser(db, user), k).value == if UserResetHits(db, user, k) then 0 else TotalOf(db, k).value
  {
    var db' := ResetUser(db, user);
    hide RuleIdx, UserIdx, GroupIdx;
    match k
    case ByRule(id) =>
      var i, j := RuleIdx(db.rules, id), RuleIdx(db'.rules, id);
      assert db.rules[j].id == id;
      assert i == j;
    case ByUser(id) =>
      var i, j := UserIdx(db.users, id), UserIdx(db'.users, id);
      assert db.users[j].id == id;
      assert i == j;
    case ByGroup(id) =>
  }

  lemma GroupResetTotal(db: DB, group: int, k: Key)
    requires Started(db) && TotalOf(ResetGroup(db, group), k).Some?
    ensures TotalOf(db, k).Some?
    ensures TotalOf(ResetGroup(db, group), k).value == if GroupResetHits(db, group, k) then 0 else TotalOf(db, k).value
  {
    var db' := ResetGroup(db, group);
    hide RuleIdx, UserIdx, GroupIdx;
    match k
    case ByRule(id) =>
      var i, j := RuleIdx(db.rules, id), RuleIdx(db'.rules, id);
      assert db.rules[j].id == id;
      assert i == j;
    case ByUser(id) =>
      var i, j := UserIdx(db.users, id), UserIdx(db'.users, id);
      assert db.users[j].id == id;
      assert i == j;
    case ByGroup(id) =>
      var i, j := GroupIdx(db.groups, id), GroupIdx(db'.groups, id);
      assert db.groups[j].id == id;
      assert i == j;
  }

  lemma GroupResetBooks(s: State, id: int, base: int)
    requires Books(s, base)
    ensures Books(ServeRequest(s, ResetGroupTotals(id)), base)
  {
    RequestIsSound(s.db, ResetGroupTotals(id));
    if GroupByID(s.db.groups, id).Some? {
      ClearedBooks(s, ServeRequest(s, ResetGroupTotals(id)), id, base);
    }
  }

  lemma ClearedBooks(s: State, s': State, id: int, base: int)
    requires Books(s, base) && Started(s'.db)
    requires s'.db == ResetGroup(s.db, id) && s'.conns == s.conns && s'.tasks == s.tasks && s'.settled == s.settled
    requires forall k :: s'.cleared(k) == s.cleared(k) + if GroupResetHits(s.db, id, k) then Total0(s.db, k) else 0
    ensures Books(s', base)
  {
    forall k | TotalOf(s'.db, k).Some? ensures TotalOf(s'.db, k).value + s'.cleared(k) == SettledFor(s'.conns, k) {
      GroupResetTotal(s.db, id, k);
    }
    forall k | KeyNo(k) > s.db.seqNo ensures s'.cleared(k) == 0 {
      if TotalOf(s.db, k).Some? { ExistingKeyIsLow(s.db, k); }
    }
  }

  lemma UserResetBooks(s: State, e: Event, base: int)
    requires TasksOk(s) && Books(s, base) && Enabled(s, e) && e.ClearTotals?
    ensures Books(Next(s, e), base)
  {
    var s' := Next(s, e);
    var user := s.tasks[e.t].user;
    ResetUserIsSound(s.db, user);
    forall k | TotalOf(s'.db, k).Some? ensures TotalOf(s'.db, k).value + s'.cleared(k) == SettledFor(s'.conns, k) {
      UserResetTotal(s.db, user, k);
    }
    forall k | KeyNo(k) > s.db.seqNo ensures s'.cleared(k) == 0 {
      if TotalOf(s.db, k).Some? { ExistingKeyIsLow(s.db, k); }
    }
  }

  // ---------- steps that leave the database alone ----------

  /** Connections may come, or change in ways the ledger does not see. */
  ghost predicate SameLedger(a: Conn, b: Conn) {
    b.rule == a.rule && b.user == a.user && b.group == a.group && b.book.settled == a.book.settled && (a.killed ==> b.killed)
  }

  lemma {:induction false} SameSettled(conns: seq<Conn>, conns': seq<Conn>, k: Key)
    requires |conns| == |conns'| && forall c :: 0 <= c < |conns| ==> SameLedger(conns[c], conns'[c])
    ensures SettledFor(conns', k) == SettledFor(conns, k)
  {
    if conns != [] { SameSettled(conns[..|conns| - 1], conns'[..|conns| - 1], k); }
  }

  lemma QuietBooks(s: State, s': State, base: int)
    requires Books(s, base)
    requires s'.db == s.db && s'.settled == s.settled && s'.cleared == s.cleared
    requires |s'.conns| == |s.conns| && forall c :: 0 <= c < |s.conns| ==> SameLedger(s.conns[c], s'.conns[c])
    requires forall t :: 0 <= t < |s'.tasks| && s'.tasks[t].Admitted? ==>
               Known(s.db.seqNo, s'.tasks[t].rule, s'.tasks[t].user, s'.tasks[t].group)
    ensures Books(s', base)
  {
    forall k | TotalOf(s'.db, k).Some? ensures TotalOf(s'.db, k).value + s'.cleared(k) == SettledFor(s'.conns, k) {
      SameSettled(s.conns, s'.conns, k);
    }
  }

  lemma RegisterBooks(s: State, e: Event, base: int)
    requires TasksOk(s) && Books(s, base) && Enabled(s, e) && e.Register?
    ensures Books(Next(s, e), base)
  {
    var s' := Next(s, e);
    assert s'.conns[..|s.conns|] == s.conns;
    forall k | TotalOf(s'.db, k).Some? ensures TotalOf(s'.db, k).value + s'.cleared(k) == SettledFor(s'.conns, k) {
    }
  }

  lemma AdmitBooks(s: State, e: Event, base: int)
    requires TasksOk(s) && Books(s, base) && Enabled(s, e) && e.Admit?
    ensures Books(Next(s, e), base)
  {
    var i := UserIdx(s.db.users, e.user);
    var g := GroupIdx(s.db.groups, s.db.users[i].group);
    assert GroupByID(s.db.groups, s.db.users[i].group).Some?;
    QuietBooks(s, Next(s, e), base);
  }

  /** Every atomic step of every thread keeps the books. */
  lemma StepKeepsBooks(s: State, e: Event, base: int)
    requires Threads(s) && Books(s, base) && Enabled(s, e)
    ensures Books(Next(s, e), base)
  {
    if e.Account? {
      var i, n := AccountIs(s, e);
      AccountKeepsBooks(s, Next(s, e), i, n, e.today, base);
    } else if e.Serve? {
      if e.r.ResetGroupTotals? { GroupResetBooks(s, e.r.id, base); } else { RequestBooks(s, e.r, base); }
    } else if e.ClearTotals? {
      UserResetBooks(s, e, base);
    } else if e.Register? {
      RegisterBooks(s, e, base);
    } else if e.Admit? {
      AdmitBooks(s, e, base);
    } else {
      QuietStep(s, e);
      QuietBooks(s, Next(s, e), base);
    }
  }

  /** A step that the ledger does not see. */
  ghost predicate LeavesLedger(s: State, s': State) {
    && s'.db == s.db && s'.settled == s.settled && s'.cleared == s.cleared
    && |s'.conns| == |s.conns| && (forall c :: 0 <= c < |s.conns| ==> SameLedger(s.conns[c], s'.conns[c]))
    && (forall t :: 0 <= t < |s'.tasks| && s'.tasks[t].Admitted? ==> t < |s.tasks| && s'.tasks[t] == s.tasks[t])
  }

  lemma CountedKeepsNames(c: Conn, d: Dir)
    ensures SameLedger(c, Counted(c, d))
  {
  }

  lemma CopiedKeepsNames(c: Conn, e: Event)
    ensures SameLedger(c, Copied(c, e))
  {
    hide Counted;
    if e.Add? { CountedKeepsNames(c, e.d); }
  }

  lemma QuietCopier(s: State, e: Event)
    requires TasksOk(s) && Enabled(s, e) && Copies(e)
    ensures LeavesLedger(s, Next(s, e))
  {
    hide TasksOk, Enabled, Next, Copied;
    CopierNext(s, e);
    CopiedKeepsNames(s.conns[e.c], e);
  }

  lemma QuietSwap(s: State, e: Event)
    requires TasksOk(s) && Enabled(s, e) && (e.SwapUp? || e.SwapDown? || e.Unregister?)
    ensures LeavesLedger(s, Next(s, e))
  {
    hide SnapshotOk, Unregistering;
  }

  lemma QuietZero(s: State, e: Event)
    requires TasksOk(s) && Enabled(s, e) && (e.ZeroUp? || e.ZeroDown? || e.Kill?)
    ensures LeavesLedger(s, Next(s, e))
  {
    hide SnapshotOk, Unregistering;
  }

  lemma QuietThread(s: State, e: Event)
    requires TasksOk(s) && Enabled(s, e)
    requires e.Spawn? || e.Snapshot? || e.QueueDone? || e.Look? || e.CutDone? || e.LockTable? || e.UnlockTable?
    ensures LeavesLedger(s, Next(s, e))
  {
    hide TaskOk, OverQuota, UserByID, LiveConns;
  }

  lemma QuietStep(s: State, e: Event)
    requires TasksOk(s) && Enabled(s, e)
    requires !e.Account? && !e.Serve? && !e.ClearTotals? && !e.Register? && !e.Admit?
    ensures LeavesLedger(s, Next(s, e))
  {
    hide TasksOk, Enabled, Next, LeavesLedger;
    if Copies(e) {
      QuietCopier(s, e);
    } else if e.SwapUp? || e.SwapDown? || e.Unregister? {
      QuietSwap(s, e);
    } else if e.ZeroUp? || e.ZeroDown? || e.Kill? {
      QuietZero(s, e);
    } else {
      QuietThread(s, e);
    }
  }

  // ---------- whole runs ----------

  /** `s'` is what step `e` leads to. */
  ghost predicate Step(s: State, e: Event, s': State) {
    Enabled(s, e) && (TasksOk(s) ==> s' == Next(s, e))
  }

  ghost predicate Trace(states: seq<State>, events: seq<Event>) {
    && |states| == |events| + 1
    && forall i :: 0 <= i < |events| ==> Step(states[i], events[i], states[i + 1])
  }

  lemma {:induction false} TraceIsGood(states: seq<State>, events: seq<Event>, base: int, i: nat)
    requires Trace(states, events) && Init(states[0], base) && i < |states|
    ensures Threads(states[i]) && Books(states[i], base)
  {
    if i == 0 {
      InitIsGood(states[0], base);
    } else {
      TraceIsGood(states, events, base, i - 1);
      assert Step(states[i - 1], events[i - 1], states[i]);
      StepKeepsThreads(states[i - 1], events[i - 1]);
      StepKeepsBooks(states[i - 1], events[i - 1], base);
    }
  }

  /** A step of a run, with what its thread may rely on. */
  lemma StepAt(states: seq<State>, events: seq<Event>, base: int, i: nat)
    requires Trace(states, events) && Init(states[0], base) && i < |events|
    ensures TasksOk(states[i]) && Started(states[i].db) && Enabled(states[i], events[i])
    ensures states[i + 1] == Next(states[i], events[i])
  {
    TraceIsGood(states, events, base, i);
    assert Step(states[i], events[i], states[i + 1]);
    hide Enabled, Next, Init;
  }

  /** Conservation: at every moment of every interleaving, the bytes added to a connection's counters are pending,
      swapped out by some thread, settled, or discarded by a reset; each byte is exactly one of these. */
  lemma BytesAreConserved(states: seq<State>, events: seq<Event>, base: int, i: nat, c: nat)
    requires Trace(states, events) && Init(states[0], base) && i < |states| && c < |states[i].conns|
    ensures var x := states[i].conns[c];
            Added(x) == x.up + x.down + InFlight(states[i].tasks, c) + x.book.settled + x.book.discarded
  {
    TraceIsGood(states, events, base, i);
  }

  /** Once a TCP handler is over and no thread holds the connection's bytes, everything was settled or discarded. */
  lemma TcpLeavesNothingPending(states: seq<State>, events: seq<Event>, base: int, i: nat, c: nat)
    requires Trace(states, events) && Init(states[0], base) && i < |states| && c < |states[i].conns|
    requires !states[i].conns[c].udp && states[i].conns[c].book.ended
    requires forall t :: 0 <= t < |states[i].tasks| ==> Held(states[i].tasks[t], c) == 0
    ensures var x := states[i].conns[c];
            x.up == 0 && x.down == 0 && Added(x) == x.book.settled + x.book.discarded
  {
    TraceIsGood(states, events, base, i);
    assert ConnOk(states[i].conns[c]);
    NothingInFlight(states[i].tasks, c);
  }

  /** The day totals add up to what was there at the start and everything settled since, whatever was reset. */
  lemma DaysHoldEverythingSettled(states: seq<State>, events: seq<Event>, base: int, i: nat)
    requires Trace(states, events) && Init(states[0], base) && i < |states|
    ensures DaySum(states[i].db.daily) == base + states[i].settled
  {
    TraceIsGood(states, events, base, i);
  }

  /** What was settled while the day was `day`, over the first `i` steps. */
  ghost function SettledOn(states: seq<State>, events: seq<Event>, i: nat, day: string): int
    requires i <= |events| < |states|
  {
    if i == 0 then 0
    else
      SettledOn(states, events, i - 1, day)
      + if events[i - 1].Account? && events[i - 1].today == day then states[i].settled - states[i - 1].settled else 0
  }

  lemma StepFilesByDay(s: State, e: Event, day: string)
    requires TasksOk(s) && Enabled(s, e)
    ensures DayBytes(Next(s, e).db.daily, day)
         == DayBytes(s.db.daily, day) + if e.Account? && e.today == day then Next(s, e).settled - s.settled else 0
  {
    hide TaskOk, Handle, AddToRule, AddToUser, AddToGroup;
    if e.Account? {
      var i, n := AccountIs(s, e);
    } else if e.Serve? {
      Scope.SettingsAreScoped(s.db, e.r);
    } else if !e.ClearTotals? && !e.Register? && !e.Admit? {
      QuietStep(s, e);
    }
  }

  /** Each day's total is what it was at the start and what was settled on that day. */
  lemma {:induction false} DaysHoldTheirSettlements(states: seq<State>, events: seq<Event>, base: int, i: nat, day: string)
    requires Trace(states, events) && Init(states[0], base) && i < |states|
    ensures DayBytes(states[i].db.daily, day) == DayBytes(states[0].db.daily, day) + SettledOn(states, events, i, day)
  {
    if i > 0 {
      assert |states| == |events| + 1;
      hide TasksOk, Enabled, Init, Trace, Next, Started, DayBytes;
      DaysHoldTheirSettlements(states, events, base, i - 1, day);
      StepAt(states, events, base, i - 1);
      StepFilesByDay(states[i - 1], events[i - 1], day);
    }
  }

  /** Every total in the database is what its connections settled, less what resets took (a total carried over from
      the start counts as taken negatively): nothing is billed twice and nothing settled is lost. */
  lemma TotalsMatchSettlements(states: seq<State>, events: seq<Event>, base: int, i: nat, k: Key)
    requires Trace(states, events) && Init(states[0], base) && i < |states| && TotalOf(states[i].db, k).Some?
    ensures TotalOf(states[i].db, k).value == SettledFor(states[i].conns, k) - states[i].cleared(k)
  {
    TraceIsGood(states, events, base, i);
  }

  /** A killed connection counts at most one more read in each direction. */
  lemma KilledCountsOneMoreRead(states: seq<State>, events: seq<Event>, base: int, i: nat, c: nat)
    requires Trace(states, events) && Init(states[0], base) && i < |states| && c < |states[i].conns|
    ensures states[i].conns[c].book.lateUp <= MaxRead(states[i].conns[c])
    ensures states[i].conns[c].book.lateDown <= MaxRead(states[i].conns[c])
  {
    TraceIsGood(states, events, base, i);
    assert ConnOk(states[i].conns[c]);
  }

  /** Once a connection has left the table, each direction counts at most one more read: the one it had in hand. */
  lemma UnregisteredCountsOneMoreRead(states: seq<State>, events: seq<Event>, base: int, i: nat, c: nat)
    requires Trace(states, events) && Init(states[0], base) && i < |states| && c < |states[i].conns|
    ensures var x := states[i].conns[c];
            && x.book.pastUp <= MaxRead(x) && x.book.pastDown <= MaxRead(x)
            && (!x.udp ==> x.book.pastUp == x.book.pastDown == 0)
  {
    TraceIsGood(states, events, base, i);
    assert ConnOk(states[i].conns[c]);
  }

  /** When a flush has looked at its last user, every snapshot connection of a user it found over quota is killed. */
  lemma FlushCutsOff(states: seq<State>, events: seq<Event>, base: int, i: nat, t: nat, j: nat)
    requires Trace(states, events) && Init(states[0], base) && i < |states| && t < |states[i].tasks|
    requires states[i].tasks[t].Cutting? && j < |states[i].tasks[t].snapshot|
    ensures var x := states[i].tasks[t].snapshot[j];
            x < |states[i].conns| && (states[i].conns[x].user in states[i].tasks[t].found ==> states[i].conns[x].killed)
  {
    TraceIsGood(states, events, base, i);
    assert TaskOk(states[i].conns, states[i].tasks[t]);
  }

  /** Connections stay in place, and no step clears a killed flag. */
  lemma StepKeepsKilled(s: State, e: Event)
    requires TasksOk(s) && Enabled(s, e)
    ensures |s.conns| <= |Next(s, e).conns|
    ensures forall c :: 0 <= c < |s.conns| && s.conns[c].killed ==> Next(s, e).conns[c].killed
  {
    if e.Account? {
      var i, n := AccountIs(s, e);
    } else if !e.Serve? && !e.ClearTotals? && !e.Register? && !e.Admit? {
      QuietStep(s, e);
    }
  }

  /** Once killed, killed for good. */
  lemma {:induction false} KilledStaysKilled(states: seq<State>, events: seq<Event>, base: int, i: nat, j: nat, c: nat)
    requires Trace(states, events) && Init(states[0], base) && i <= j < |states| && c < |states[i].conns|
    ensures c < |states[j].conns| && (states[i].conns[c].killed ==> states[j].conns[c].killed)
  {
    if i < j {
      assert |states| == |events| + 1;
      hide TasksOk, Enabled, Init, Trace, Next, Started;
      KilledStaysKilled(states, events, base, i, j - 1, c);
      StepAt(states, events, base, j - 1);
      StepKeepsKilled(states[j - 1], events[j - 1]);
    }
  }

  // ---------- nesting of totals, while nothing is moved ----------

  ghost predicate Orderly(s: State) {
    && Nested(s.db)
    && (forall c :: 0 <= c < |s.conns| ==> Linked(s.db, s.conns[c].rule, s.conns[c].user, s.conns[c].group))
    && (forall t :: 0 <= t < |s.tasks| && s.tasks[t].Admitted? ==>
          Linked(s.db, s.tasks[t].rule, s.tasks[t].user, s.tasks[t].group))
  }

  /** What a connection remembers stays true of whatever is left of it: ids are never used again. */
  lemma FrameKeepsLinks(db: DB, db': DB, rule: int, user: int, group: int)
    requires Frame(db, db', true) && Linked(db, rule, user, group) && Known(db.seqNo, rule, user, group)
    ensures Linked(db', rule, user, group)
  {
  }

  lemma TotalsKeepLinks(db: DB, db': DB, rule: int, user: int, group: int)
    requires SameButTotals(db, db') && Linked(db, rule, user, group)
    ensures Linked(db', rule, user, group)
  {
  }

  lemma RequestKeepsLinks(s: State, r: Request, rule: int, user: int, group: int)
    requires !Moves(s.db, r) && Linked(s.db, rule, user, group) && Known(s.db.seqNo, rule, user, group)
    ensures Linked(Handle(s.db, r).db, rule, user, group)
  {
    if r.ResetUserTotals? {
      ResetUserKeeps(s.db, r.id);
      TotalsKeepLinks(s.db, ResetUser(s.db, r.id), rule, user, group);
    } else if r.ResetGroupTotals? {
      ResetGroupKeeps(s.db, r.id);
      TotalsKeepLinks(s.db, ResetGroup(s.db, r.id), rule, user, group);
    } else {
      RequestFrame(s.db, r);
      FrameKeepsLinks(s.db, Handle(s.db, r).db, rule, user, group);
    }
  }

  lemma ServeIsOrderly(s: State, r: Request, base: int)
    requires Books(s, base) && Orderly(s) && !Moves(s.db, r)
    ensures Orderly(ServeRequest(s, r))
  {
    var s' := ServeRequest(s, r);
    RequestIsNested(s.db, r);
    forall c | 0 <= c < |s.conns| ensures Linked(s'.db, s.conns[c].rule, s.conns[c].user, s.conns[c].group) {
      RequestKeepsLinks(s, r, s.conns[c].rule, s.conns[c].user, s.conns[c].group);
    }
    forall t | 0 <= t < |s.tasks| && s.tasks[t].Admitted?
      ensures Linked(s'.db, s.tasks[t].rule, s.tasks[t].user, s.tasks[t].group)
    {
      RequestKeepsLinks(s, r, s.tasks[t].rule, s.tasks[t].user, s.tasks[t].group);
    }
  }

  lemma LinksSurvive(s: State, s': State)
    requires Orderly(s) && Nested(s'.db) && SameButTotals(s.db, s'.db)
    requires |s'.conns| == |s.conns|
    requires forall c :: 0 <= c < |s.conns| ==>
               s'.conns[c].rule == s.conns[c].rule && s'.conns[c].user == s.conns[c].user && s'.conns[c].group == s.conns[c].group
    requires forall t :: 0 <= t < |s'.tasks| && s'.tasks[t].Admitted? ==> t < |s.tasks| && s'.tasks[t] == s.tasks[t]
    ensures Orderly(s')
  {
  }

  lemma AccountIsOrderly(s: State, s': State, i: nat, n: nat, today: string)
    requires Started(s.db) && Orderly(s) && Accounts(s, s', i, n, today)
    ensures Orderly(s')
  {
    SettleIsNested(s.db, s.conns[i].rule, s.conns[i].user, s.conns[i].group, n, today);
    SettleKeeps(s.db, s.conns[i].rule, s.conns[i].user, s.conns[i].group, n, today);
    LinksSurvive(s, s');
  }

  lemma ClearIsOrderly(s: State, e: Event, base: int)
    requires Threads(s) && Books(s, base) && Orderly(s) && Enabled(s, e) && e.ClearTotals?
    ensures Orderly(Next(s, e))
  {
    ResetUserIsNested(s.db, s.tasks[e.t].user);
    ResetUserKeeps(s.db, s.tasks[e.t].user);
    LinksSurvive(s, Next(s, e));
  }

  lemma AdmitIsOrderly(s: State, e: Event, base: int)
    requires Threads(s) && Books(s, base) && Orderly(s) && Enabled(s, e) && (e.Admit? || e.Register?)
    ensures Orderly(Next(s, e))
  {
    hide Nested, TaskOk, ConnOk, LedgerOk;
    if e.Admit? {
      var i := UserIdx(s.db.users, e.user);
      assert forall j :: 0 <= j < |s.db.users| && s.db.users[j].id == e.user ==> j == i;
    }
  }

  lemma StepIsOrderly(s: State, e: Event, base: int)
    requires Threads(s) && Books(s, base) && Orderly(s) && Enabled(s, e)
    requires e.Serve? ==> !Moves(s.db, e.r)
    ensures Orderly(Next(s, e))
  {
    hide Orderly, Linked, Moves, Started, Settle, ResetUser, TaskOk, ConnOk, Handle;
    if e.Serve? {
      ServeIsOrderly(s, e.r, base);
    } else if e.Account? {
      var i, n := AccountIs(s, e);
      AccountIsOrderly(s, Next(s, e), i, n, e.today);
    } else if e.ClearTotals? {
      ClearIsOrderly(s, e, base);
    } else if e.Admit? || e.Register? {
      AdmitIsOrderly(s, e, base);
    } else {
      QuietIsOrderly(s, e);
    }
  }

  lemma QuietIsOrderly(s: State, e: Event)
    requires TasksOk(s) && Orderly(s) && Enabled(s, e)
    requires !e.Account? && !e.Serve? && !e.ClearTotals? && !e.Register? && !e.Admit?
    ensures Orderly(Next(s, e))
  {
    hide Enabled, Next, TaskOk, Linked, Nested;
    QuietStep(s, e);
    LinksSurvive(s, Next(s, e));
  }

  /** The steps that break the nesting: an edit that moves too much, and a settlement, by a connection opened before a
      move, of bytes that do not fit where its rule or user is now. */
  ghost predicate Breaks(s: State, e: Event) {
    match e
    case Serve(r) => BreaksNesting(s.db, r)
    case Account(t, _) =>
      && IsTask(s, t) && s.tasks[t].Settling? && s.tasks[t].queue != [] && s.tasks[t].queue[0] < |s.conns|
      && var c, n := s.conns[s.tasks[t].queue[0]], Or0(s.tasks[t].up) + Or0(s.tasks[t].down);
         n > 0 && !(FitsOwner(s.db, c.rule, c.user, n) && FitsGroup(s.db, c.user, c.group, n))
    case _ => false
  }

  /** Of all steps of all threads, exactly these break it. */
  lemma StepKeepsNesting(s: State, e: Event)
    requires TasksOk(s) && Started(s.db) && Nested(s.db) && Enabled(s, e)
    ensures Nested(Next(s, e).db) <==> !Breaks(s, e)
  {
    hide Started, Nested, Handle, Settle, ResetUser, FitsOwner, FitsGroup, BreaksNesting, TaskOk;
    if e.Serve? {
      RequestKeepsNesting(s.db, e.r);
    } else if e.Account? {
      var i, n := AccountIs(s, e);
      SettleKeepsNesting(s.db, s.conns[i].rule, s.conns[i].user, s.conns[i].group, n, e.today);
    } else if e.ClearTotals? {
      ResetsAreNested(s.db, s.tasks[e.t].user);
    } else if !e.Register? && !e.Admit? {
      QuietStep(s, e);
    }
  }

  /** So in every interleaving the totals are nested until one of these steps, whatever is moved. */
  lemma {:induction false} NestedUntilBroken(states: seq<State>, events: seq<Event>, base: int, i: nat)
    requires Trace(states, events) && Init(states[0], base) && Nested(states[0].db) && i < |states|
    requires forall j :: 0 <= j < i ==> !Breaks(states[j], events[j])
    ensures Nested(states[i].db)
    ensures i < |events| ==> (Nested(states[i + 1].db) <==> !Breaks(states[i], events[i]))
  {
    assert |states| == |events| + 1;
    hide TasksOk, Enabled, Init, Trace, Next, Nested, Breaks, Started;
    if i > 0 { NestedUntilBroken(states, events, base, i - 1); }
    if i < |events| {
      StepAt(states, events, base, i);
      StepKeepsNesting(states[i], events[i]);
    }
  }

  /** In every interleaving in which no rule changes owner and no user changes group, a user's rules sum to at most the
      user's total and a group's users to at most the group's, through settlements, resets, creations and deletions. */
  lemma {:induction false} TotalsStayNested(states: seq<State>, events: seq<Event>, base: int, i: nat)
    requires Trace(states, events) && Init(states[0], base) && Nested(states[0].db) && i < |states|
    requires forall j :: 0 <= j < |events| && events[j].Serve? ==> !Moves(states[j].db, events[j].r)
    ensures Orderly(states[i])
  {
    if i > 0 {
      TotalsStayNested(states, events, base, i - 1);
      TraceIsGood(states, events, base, i - 1);
      assert Step(states[i - 1], events[i - 1], states[i]);
      StepIsOrderly(states[i - 1], events[i - 1], base);
    }
  }

  /** Without moves none of those steps happens. */
  lemma WithoutMovesNothingBreaks(states: seq<State>, events: seq<Event>, base: int, i: nat)
    requires Trace(states, events) && Init(states[0], base) && Nested(states[0].db) && i < |events|
    requires forall j :: 0 <= j < |events| && events[j].Serve? ==> !Moves(states[j].db, events[j].r)
    ensures !Breaks(states[i], events[i])
  {
    TotalsStayNested(states, events, base, i);
    TotalsStayNested(states, events, base, i + 1);
    StepAt(states, events, base, i);
    assert Nested(states[i].db) && Nested(states[i + 1].db);
    hide Init, Trace, Nested, Breaks, Next, Enabled, Orderly, Started, TaskOk;
    StepKeepsNesting(states[i], events[i]);
  }
}
