/** Whose bytes and connections a reset, a settlement and a flush reach, and that they reach them all (ResetUserTraffic,
    unregister and flush in relay.go). */
module BillingReach {
  import opened Stores
  import opened Registry
  import opened Soundness
  import opened Billing
  import opened BillingSafety
  import opened BillingLedger
  import opened Quota

  // ---------- one thread at a time ----------

  /** A step of thread `t`. */
  predicate StepOf(e: Event, t: nat) {
    !e.Spawn? && !e.Serve? && !Copies(e) && e.t == t
  }

  /** No thread touches another one's state. */
  lemma OtherStepKeepsTask(s: State, e: Event, t: nat)
    requires TasksOk(s) && Enabled(s, e) && t < |s.tasks| && !StepOf(e, t)
    ensures t < |Next(s, e).tasks| && Next(s, e).tasks[t] == s.tasks[t]
  {
    hide TaskOk, Settle, ResetUser, Handle, OverQuota, UserByID, LiveConns, Counted;
  }

  /** What no step changes in a connection. */
  lemma StepKeepsOwner(s: State, e: Event, c: nat)
    requires TasksOk(s) && Enabled(s, e) && c < |s.conns|
    ensures c < |Next(s, e).conns| && Next(s, e).conns[c].user == s.conns[c].user
  {
    hide TasksOk, Enabled, Next, TaskOk;
    if e.Account? {
      var i, n := AccountIs(s, e);
    } else if !e.Serve? && !e.ClearTotals? && !e.Register? && !e.Admit? {
      QuietStep(s, e);
    } else {
      OtherStepKeepsConns(s, e);
    }
  }

  lemma OtherStepKeepsConns(s: State, e: Event)
    requires TasksOk(s) && Enabled(s, e) && (e.Serve? || e.ClearTotals? || e.Register? || e.Admit?)
    ensures |s.conns| <= |Next(s, e).conns| && forall c :: 0 <= c < |s.conns| ==> Next(s, e).conns[c] == s.conns[c]
  {
    hide TaskOk, Handle, ResetUser;
  }

  // ---------- what was pending ----------

  function AddedOf(c: Conn, d: Dir): nat { if d.Up? then c.book.addedUp else c.book.addedDown }

  /** What direction `d` has pending was counted after it had counted `since` bytes. */
  predicate NewSince(c: Conn, d: Dir, since: nat) {
    CounterOf(c, d) + since <= AddedOf(c, d)
  }

  /** Counters grow by what is counted, and by nothing else. */
  predicate Drains(a: Conn, b: Conn) {
    && AddedOf(a, Up) <= AddedOf(b, Up) && b.up + AddedOf(a, Up) <= a.up + AddedOf(b, Up)
    && AddedOf(a, Down) <= AddedOf(b, Down) && b.down + AddedOf(a, Down) <= a.down + AddedOf(b, Down)
  }

  lemma CountedDrains(c: Conn, d: Dir)
    ensures Drains(c, Counted(c, d))
  {
  }

  lemma CopiedDrains(c: Conn, e: Event)
    ensures Drains(c, Copied(c, e))
  {
    hide Counted;
    if e.Add? { CountedDrains(c, e.d); }
  }

  lemma EmptyingDrains(s: State, e: Event, c: nat)
    requires TasksOk(s) && Enabled(s, e) && c < |s.conns| && (e.SwapUp? || e.SwapDown? || e.ZeroUp? || e.ZeroDown?)
    ensures c < |Next(s, e).conns| && Drains(s.conns[c], Next(s, e).conns[c])
  {
    assert TaskOk(s.conns, s.tasks[e.t]);
    hide SnapshotOk, Unregistering;
  }

  lemma ThreadDrains(s: State, e: Event, c: nat)
    requires TasksOk(s) && Enabled(s, e) && c < |s.conns| && (e.Account? || e.Kill? || e.Unregister?)
    ensures c < |Next(s, e).conns| && Drains(s.conns[c], Next(s, e).conns[c])
  {
    assert TaskOk(s.conns, s.tasks[e.t]);
    hide Settle, SnapshotOk, Unregistering;
  }

  lemma StepDrains(s: State, e: Event, c: nat)
    requires TasksOk(s) && Enabled(s, e) && c < |s.conns|
    ensures c < |Next(s, e).conns| && Drains(s.conns[c], Next(s, e).conns[c])
  {
    hide TaskOk, ResetUser, Handle, OverQuota, UserByID, LiveConns, Copied;
    if Copies(e) {
      hide Next, Enabled;
      CopierNext(s, e);
      CopiedDrains(s.conns[e.c], e);
    } else if e.SwapUp? || e.SwapDown? || e.ZeroUp? || e.ZeroDown? {
      EmptyingDrains(s, e, c);
    } else if e.Account? || e.Kill? || e.Unregister? {
      ThreadDrains(s, e, c);
    }
  }

  // ---------- a reset takes the user's own bytes ----------

  /** The reset of thread `t` was started for user `user` at step `k`, with `c` in the table and one of the user's. */
  ghost predicate StartedFor(states: seq<State>, events: seq<Event>, k: nat, t: nat, user: int, c: nat) {
    && k < |events| && k < |states| && events[k] == LockTable(t, user)
    && c < |states[k].conns| && states[k].conns[c].live && states[k].conns[c].user == user
  }

  predicate StillToZero(k: Task, c: nat) {
    k.Resetting? && (c in k.rest || k.half == Some(c))
  }

  /** Only LockTable puts a connection on a reset's list. */
  lemma ListedByLock(s: State, e: Event, t: nat, c: nat)
    requires TasksOk(s) && Enabled(s, e) && t < |Next(s, e).tasks| && StillToZero(Next(s, e).tasks[t], c)
    ensures || (t < |s.tasks| && StillToZero(s.tasks[t], c) && Next(s, e).tasks[t].user == s.tasks[t].user)
            || (e == LockTable(t, Next(s, e).tasks[t].user) && c < |s.conns| && s.conns[c].live
                && s.conns[c].user == Next(s, e).tasks[t].user)
  {
    hide TaskOk, ResetUser, Handle, Settle, OverQuota, UserByID, Counted;
  }

  lemma ListedAt(states: seq<State>, events: seq<Event>, base: int, i: nat, t: nat, c: nat)
    requires Trace(states, events) && Init(states[0], base) && i < |events|
    requires t < |states[i + 1].tasks| && StillToZero(states[i + 1].tasks[t], c)
    ensures || (t < |states[i].tasks| && StillToZero(states[i].tasks[t], c) && states[i].tasks[t].user == states[i + 1].tasks[t].user)
            || StartedFor(states, events, i, t, states[i + 1].tasks[t].user, c)
  {
    StepAt(states, events, base, i);
    assert |states| == |events| + 1;
    hide TasksOk, Enabled, Init, Trace, Next, Started;
    ListedByLock(states[i], events[i], t, c);
  }

  lemma {:induction false} ListedSince(states: seq<State>, events: seq<Event>, base: int, i: nat, t: nat, c: nat) returns (k: nat)
    requires Trace(states, events) && Init(states[0], base) && i < |states|
    requires t < |states[i].tasks| && StillToZero(states[i].tasks[t], c)
    ensures k < i && StartedFor(states, events, k, t, states[i].tasks[t].user, c)
  {
    assert |states| == |events| + 1;
    assert states[0].tasks == [];
    hide Init, Trace, StillToZero;
    ListedAt(states, events, base, i - 1, t, c);
    if StartedFor(states, events, i - 1, t, states[i].tasks[t].user, c) {
      k := i - 1;
    } else {
      k := ListedSince(states, events, base, i - 1, t, c);
    }
  }

  /** Only the zeroing steps discard bytes, and only those of the connection they zero. */
  lemma OnlyZeroingDiscards(s: State, e: Event, c: nat)
    requires TasksOk(s) && Enabled(s, e) && c < |s.conns|
    ensures c < |Next(s, e).conns|
    ensures Next(s, e).conns[c].book.discarded != s.conns[c].book.discarded
            ==> (e.ZeroUp? || e.ZeroDown?) && e.t < |s.tasks| && StillToZero(s.tasks[e.t], c)
                && s.tasks[e.t].user == s.conns[c].user
  {
    hide ResetUser, Handle, Settle, OverQuota, UserByID, LiveConns, SnapshotOk, Unregistering;
    if Copies(e) {
      hide Next, Enabled, TaskOk, Copied;
      CopierNext(s, e);
      CopiedDiscardsNothing(s.conns[e.c], e);
    } else if e.ZeroUp? || e.ZeroDown? {
      assert TaskOk(s.conns, s.tasks[e.t]);
    } else if e.SwapUp? || e.SwapDown? || e.Account? || e.Kill? {
      assert TaskOk(s.conns, s.tasks[e.t]);
    }
  }

  lemma CountedDiscardsNothing(c: Conn, d: Dir)
    ensures Counted(c, d).book.discarded == c.book.discarded && Counted(c, d).killed == c.killed
  {
  }

  lemma CopiedDiscardsNothing(c: Conn, e: Event)
    ensures Copied(c, e).book.discarded == c.book.discarded && Copied(c, e).killed == c.killed
  {
    hide Counted;
    if e.Add? { CountedDiscardsNothing(c, e.d); }
  }

  /** Whenever bytes of a connection are discarded, a reset of its own user is under way, which found the connection in the
      table when it took the lock. */
  lemma DiscardsAreTheOwners(states: seq<State>, events: seq<Event>, base: int, i: nat, c: nat) returns (k: nat)
    requires Trace(states, events) && Init(states[0], base) && i < |events| && c < |states[i].conns|
    requires c < |states[i + 1].conns| ==> states[i + 1].conns[c].book.discarded != states[i].conns[c].book.discarded
    ensures var e, user := events[i], states[i].conns[c].user;
            && (e.ZeroUp? || e.ZeroDown?) && e.t < |states[i].tasks|
            && states[i].tasks[e.t].Resetting? && states[i].tasks[e.t].user == user
            && k < i && StartedFor(states, events, k, e.t, user, c)
  {
    StepAt(states, events, base, i);
    OnlyZeroingDiscards(states[i], events[i], c);
    hide Init, Trace, Next, Enabled, TasksOk, Started;
    k := ListedSince(states, events, base, i, events[i].t, c);
  }

  /** So nothing is ever discarded from the connections of a user who is never reset. */
  lemma {:induction false} NoResetNoDiscard(states: seq<State>, events: seq<Event>, base: int, i: nat, c: nat)
    requires Trace(states, events) && Init(states[0], base) && i < |states| && c < |states[i].conns|
    requires forall k, t :: 0 <= k < i ==> events[k] != LockTable(t, states[i].conns[c].user)
    ensures states[i].conns[c].book.discarded == 0
  {
    assert |states| == |events| + 1;
    assert states[0].conns == [];
    hide TasksOk, Enabled, Init, Trace, Next, Started;
    var s := states[i - 1];
    StepAt(states, events, base, i - 1);
    if c < |s.conns| {
      StepKeepsOwner(s, events[i - 1], c);
      NoResetNoDiscard(states, events, base, i - 1, c);
      if states[i].conns[c].book.discarded != s.conns[c].book.discarded {
        var k := DiscardsAreTheOwners(states, events, base, i - 1, c);
      }
    } else {
      NewIsBlank(s, events[i - 1], c);
    }
  }

  lemma NewIsBlank(s: State, e: Event, c: nat)
    requires TasksOk(s) && Enabled(s, e) && |s.conns| <= c < |Next(s, e).conns|
    ensures Next(s, e).conns[c].book.discarded == 0
  {
    hide TaskOk, ResetUser, Handle, Settle, TasksOk;
    if e.Account? {
      var i, n := AccountIs(s, e);
    } else if !e.Serve? && !e.ClearTotals? && !e.Register? && !e.Admit? {
      hide Next, Enabled;
      QuietStep(s, e);
    }
  }

  // ---------- and all of them ----------

  predicate BothNew(c: Conn, up: nat, down: nat) {
    NewSince(c, Up, up) && NewSince(c, Down, down)
  }

  /** Thread `k` is resetting `user`; connection `x`, number `c`, is still on its list or is emptied of what it had counted
      before. */
  predicate ResetOn(k: Task, user: int, c: nat, x: Conn, up: nat, down: nat) {
    && k.Resetting? && k.user == user && up <= AddedOf(x, Up) && down <= AddedOf(x, Down)
    && (c in k.rest || (NewSince(x, Up, up) && (k.half == Some(c) || NewSince(x, Down, down))))
  }

  lemma DrainsKeepsReset(k: Task, user: int, c: nat, x: Conn, x': Conn, up: nat, down: nat)
    requires ResetOn(k, user, c, x, up, down) && Drains(x, x')
    ensures ResetOn(k, user, c, x', up, down)
  {
  }

  lemma ResetGoesOn(s: State, e: Event, t: nat, user: int, c: nat, up: nat, down: nat)
    requires TasksOk(s) && Enabled(s, e) && t < |s.tasks| && c < |s.conns| && e != UnlockTable(t)
    requires ResetOn(s.tasks[t], user, c, s.conns[c], up, down)
    ensures t < |Next(s, e).tasks| && c < |Next(s, e).conns|
    ensures ResetOn(Next(s, e).tasks[t], user, c, Next(s, e).conns[c], up, down)
  {
    StepDrains(s, e, c);
    if StepOf(e, t) {
      assert TaskOk(s.conns, s.tasks[t]);
      hide LiveConns;
    } else {
      OtherStepKeepsTask(s, e, t);
      hide TasksOk, Enabled, Next, Drains, ResetOn;
      DrainsKeepsReset(s.tasks[t], user, c, s.conns[c], Next(s, e).conns[c], up, down);
    }
  }

  lemma LockStartsReset(s: State, e: Event, t: nat, user: int, c: nat)
    requires TasksOk(s) && Enabled(s, e) && e == LockTable(t, user)
    requires c < |s.conns| && s.conns[c].live && s.conns[c].user == user
    ensures t < |Next(s, e).tasks| && c < |Next(s, e).conns|
    ensures ResetOn(Next(s, e).tasks[t], user, c, Next(s, e).conns[c], AddedOf(s.conns[c], Up), AddedOf(s.conns[c], Down))
  {
    hide TaskOk;
  }

  lemma ResetStartsAt(states: seq<State>, events: seq<Event>, base: int, i: nat, t: nat, user: int, c: nat)
    requires Trace(states, events) && Init(states[0], base) && i < |events| && StartedFor(states, events, i, t, user, c)
    ensures t < |states[i + 1].tasks| && c < |states[i + 1].conns|
    ensures ResetOn(states[i + 1].tasks[t], user, c, states[i + 1].conns[c],
                    AddedOf(states[i].conns[c], Up), AddedOf(states[i].conns[c], Down))
  {
    StepAt(states, events, base, i);
    hide TasksOk, Enabled, Init, Trace, Next, Started, ResetOn, AddedOf;
    LockStartsReset(states[i], events[i], t, user, c);
  }

  lemma ResetGoesOnAt(states: seq<State>, events: seq<Event>, base: int, i: nat, t: nat, user: int, c: nat, up: nat, down: nat)
    requires Trace(states, events) && Init(states[0], base) && i < |events|
    requires t < |states[i].tasks| && c < |states[i].conns| && events[i] != UnlockTable(t)
    requires ResetOn(states[i].tasks[t], user, c, states[i].conns[c], up, down)
    ensures t < |states[i + 1].tasks| && c < |states[i + 1].conns|
    ensures ResetOn(states[i + 1].tasks[t], user, c, states[i + 1].conns[c], up, down)
  {
    StepAt(states, events, base, i);
    hide TasksOk, Enabled, Init, Trace, Next, Started, ResetOn;
    ResetGoesOn(states[i], events[i], t, user, c, up, down);
  }

  lemma {:induction false} ResetLasts(states: seq<State>, events: seq<Event>, base: int, i: nat, j: nat, t: nat, user: int, c: nat)
    requires Trace(states, events) && Init(states[0], base) && StartedFor(states, events, i, t, user, c) && i < j < |states|
    requires forall k :: i < k < j ==> events[k] != UnlockTable(t)
    ensures t < |states[j].tasks| && c < |states[j].conns|
    ensures ResetOn(states[j].tasks[t], user, c, states[j].conns[c], AddedOf(states[i].conns[c], Up), AddedOf(states[i].conns[c], Down))
  {
    assert |states| == |events| + 1;
    assert c < |states[i].conns|;
    hide Init, Trace, ResetOn, StartedFor, AddedOf;
    ResetStartsAt(states, events, base, i, t, user, c);
    if i < j - 1 {
      ResetLasts(states, events, base, i, j - 1, t, user, c);
      ResetGoesOnAt(states, events, base, j - 1, t, user, c, AddedOf(states[i].conns[c], Up), AddedOf(states[i].conns[c], Down));
    }
  }

  lemma ResetIsDone(s: State, e: Event, t: nat, user: int, c: nat, up: nat, down: nat)
    requires Enabled(s, e) && e == UnlockTable(t) && t < |s.tasks| && c < |s.conns|
    requires ResetOn(s.tasks[t], user, c, s.conns[c], up, down)
    ensures BothNew(s.conns[c], up, down)
  {
  }

  /** A reset misses nothing: when it releases the table, all that a connection of the user, in the table when the reset
      took it, has pending was counted since then. What was pending before was discarded, or swapped out by another thread. */
  lemma ResetTakesWhatWasPending(states: seq<State>, events: seq<Event>, base: int, i: nat, j: nat, t: nat, user: int, c: nat)
    requires Trace(states, events) && Init(states[0], base) && i < j < |events|
    requires events[i] == LockTable(t, user) && events[j] == UnlockTable(t)
    requires forall k :: i < k < j ==> events[k] != UnlockTable(t)
    requires c < |states[i].conns| && states[i].conns[c].live && states[i].conns[c].user == user
    ensures c < |states[j].conns| && BothNew(states[j].conns[c], AddedOf(states[i].conns[c], Up), AddedOf(states[i].conns[c], Down))
  {
    ResetLasts(states, events, base, i, j, t, user, c);
    StepAt(states, events, base, j);
    hide TasksOk, Init, Trace, Next, Started, ResetOn;
    ResetIsDone(states[j], events[j], t, user, c, AddedOf(states[i].conns[c], Up), AddedOf(states[i].conns[c], Down));
  }

  // ---------- a settlement takes everything too ----------

  /** Thread `k` is settling; connection `x`, number `c`, is still in its queue or is emptied of what it had counted
      before. */
  predicate SettlingOn(k: Task, c: nat, x: Conn, up: nat, down: nat) {
    && k.Settling? && up <= AddedOf(x, Up) && down <= AddedOf(x, Down)
    && (c in k.queue || BothNew(x, up, down))
    && (k.queue != [] && k.queue[0] == c ==> (k.up.Some? ==> NewSince(x, Up, up)) && (k.down.Some? ==> NewSince(x, Down, down)))
  }

  lemma DrainsKeepsSettling(k: Task, c: nat, x: Conn, x': Conn, up: nat, down: nat)
    requires SettlingOn(k, c, x, up, down) && Drains(x, x')
    ensures SettlingOn(k, c, x', up, down)
  {
  }

  /** The three steps of a settlement, on its own connection. */
  lemma SettlingMoves(s: State, e: Event, t: nat, c: nat, up: nat, down: nat)
    requires TasksOk(s) && Enabled(s, e) && t < |s.tasks| && c < |s.conns| && StepOf(e, t) && !e.QueueDone?
    requires SettlingOn(s.tasks[t], c, s.conns[c], up, down)
    ensures t < |Next(s, e).tasks| && c < |Next(s, e).conns|
    ensures SettlingOn(Next(s, e).tasks[t], c, Next(s, e).conns[c], up, down)
  {
    assert TaskOk(s.conns, s.tasks[t]);
    hide LiveConns, Unregistering, SnapshotOk, Settle;
    var q := s.tasks[t].queue;
    if q != [] { assert q == [q[0]] + q[1..]; }
  }

  lemma SettlingGoesOn(s: State, e: Event, t: nat, c: nat, up: nat, down: nat)
    requires TasksOk(s) && Enabled(s, e) && t < |s.tasks| && c < |s.conns| && !(e.QueueDone? && e.t == t)
    requires SettlingOn(s.tasks[t], c, s.conns[c], up, down)
    ensures t < |Next(s, e).tasks| && c < |Next(s, e).conns|
    ensures SettlingOn(Next(s, e).tasks[t], c, Next(s, e).conns[c], up, down)
  {
    if StepOf(e, t) {
      SettlingMoves(s, e, t, c, up, down);
    } else {
      StepDrains(s, e, c);
      OtherStepKeepsTask(s, e, t);
      hide TasksOk, Enabled, Next, Drains, SettlingOn;
      DrainsKeepsSettling(s.tasks[t], c, s.conns[c], Next(s, e).conns[c], up, down);
    }
  }

  /** A flush whose snapshot is taken while `c` is in the table, or an unregister of `c`. */
  ghost predicate StartsSettling(s: State, e: Event, t: nat, c: nat) {
    && c < |s.conns|
    && ((e.Snapshot? && e.t == t && s.conns[c].live) || e == Unregister(t, c))
  }

  lemma SettlingStarts(s: State, e: Event, t: nat, c: nat)
    requires TasksOk(s) && Enabled(s, e) && StartsSettling(s, e, t, c)
    ensures t < |Next(s, e).tasks| && c < |Next(s, e).conns|
    ensures SettlingOn(Next(s, e).tasks[t], c, Next(s, e).conns[c], AddedOf(s.conns[c], Up), AddedOf(s.conns[c], Down))
  {
    hide TaskOk;
  }

  predicate QueueDoneBy(e: Event, t: nat) { e.QueueDone? && e.t == t }

  lemma SettlingStartsAt(states: seq<State>, events: seq<Event>, base: int, i: nat, t: nat, c: nat)
    requires Trace(states, events) && Init(states[0], base) && i < |events| && StartsSettling(states[i], events[i], t, c)
    ensures t < |states[i + 1].tasks| && c < |states[i].conns| && c < |states[i + 1].conns|
    ensures SettlingOn(states[i + 1].tasks[t], c, states[i + 1].conns[c],
                       AddedOf(states[i].conns[c], Up), AddedOf(states[i].conns[c], Down))
  {
    StepAt(states, events, base, i);
    assert c < |states[i].conns|;
    hide TasksOk, Enabled, Init, Trace, Next, Started, SettlingOn, StartsSettling, AddedOf;
    SettlingStarts(states[i], events[i], t, c);
  }

  lemma SettlingGoesOnAt(states: seq<State>, events: seq<Event>, base: int, i: nat, t: nat, c: nat, up: nat, down: nat)
    requires Trace(states, events) && Init(states[0], base) && i < |events|
    requires t < |states[i].tasks| && c < |states[i].conns| && !QueueDoneBy(events[i], t)
    requires SettlingOn(states[i].tasks[t], c, states[i].conns[c], up, down)
    ensures t < |states[i + 1].tasks| && c < |states[i + 1].conns|
    ensures SettlingOn(states[i + 1].tasks[t], c, states[i + 1].conns[c], up, down)
  {
    StepAt(states, events, base, i);
    hide TasksOk, Enabled, Init, Trace, Next, Started, SettlingOn;
    SettlingGoesOn(states[i], events[i], t, c, up, down);
  }

  lemma {:induction false} SettlingLasts(states: seq<State>, events: seq<Event>, base: int, i: nat, j: nat, t: nat, c: nat)
    requires Trace(states, events) && Init(states[0], base) && i < j < |states| && StartsSettling(states[i], events[i], t, c)
    requires forall k :: i < k < j ==> !QueueDoneBy(events[k], t)
    ensures t < |states[j].tasks| && c < |states[j].conns|
    ensures SettlingOn(states[j].tasks[t], c, states[j].conns[c], AddedOf(states[i].conns[c], Up), AddedOf(states[i].conns[c], Down))
  {
    assert |states| == |events| + 1;
    hide Init, Trace, SettlingOn, StartsSettling, AddedOf, QueueDoneBy;
    SettlingStartsAt(states, events, base, i, t, c);
    if i < j - 1 {
      SettlingLasts(states, events, base, i, j - 1, t, c);
      SettlingGoesOnAt(states, events, base, j - 1, t, c, AddedOf(states[i].conns[c], Up), AddedOf(states[i].conns[c], Down));
    }
  }

  lemma SettlingIsDone(s: State, e: Event, t: nat, c: nat, up: nat, down: nat)
    requires Enabled(s, e) && QueueDoneBy(e, t) && t < |s.tasks| && c < |s.conns|
    requires SettlingOn(s.tasks[t], c, s.conns[c], up, down)
    ensures BothNew(s.conns[c], up, down) && Held(s.tasks[t], c) == 0
  {
  }

  /** A settlement misses nothing: when a flush has gone through its queue, all that a connection in the table at its
      snapshot has pending was counted since, and the thread holds nothing back; likewise when an unregister ends. */
  lemma SettlementTakesWhatWasPending(states: seq<State>, events: seq<Event>, base: int, i: nat, j: nat, t: nat, c: nat)
    requires Trace(states, events) && Init(states[0], base) && i < j < |events|
    requires StartsSettling(states[i], events[i], t, c) && QueueDoneBy(events[j], t)
    requires forall k :: i < k < j ==> !QueueDoneBy(events[k], t)
    ensures c < |states[j].conns| && BothNew(states[j].conns[c], AddedOf(states[i].conns[c], Up), AddedOf(states[i].conns[c], Down))
    ensures t < |states[j].tasks| && Held(states[j].tasks[t], c) == 0
  {
    SettlingLasts(states, events, base, i, j, t, c);
    StepAt(states, events, base, j);
    hide TasksOk, Init, Trace, Next, Started, SettlingOn;
    SettlingIsDone(states[j], events[j], t, c, AddedOf(states[i].conns[c], Up), AddedOf(states[i].conns[c], Down));
  }

  // ---------- only those found over quota are cut off ----------

  /** A flush of thread `t` looked at user `user` and found it over quota, or found it gone from the database. */
  ghost predicate FoundOver(s: State, e: Event, t: nat, user: int) {
    && e == Look(t, true) && t < |s.tasks| && s.tasks[t].Cutting? && s.tasks[t].users != [] && s.tasks[t].users[0] == user
    && (UserByID(s.db.users, user).Some? ==> CutOff(s.db, user))
  }

  lemma KillingByLook(s: State, e: Event, t: nat)
    requires TasksOk(s) && Enabled(s, e) && t < |Next(s, e).tasks| && Next(s, e).tasks[t].Killing?
    ensures || (t < |s.tasks| && s.tasks[t].Killing? && s.tasks[t].user == Next(s, e).tasks[t].user)
            || FoundOver(s, e, t, Next(s, e).tasks[t].user)
  {
    hide TaskOk, ResetUser, Handle, Settle, OverQuota, UserIdx, LiveConns, Counted;
  }

  lemma KillingAt(states: seq<State>, events: seq<Event>, base: int, i: nat, t: nat)
    requires Trace(states, events) && Init(states[0], base) && i < |events|
    requires t < |states[i + 1].tasks| && states[i + 1].tasks[t].Killing?
    ensures || (t < |states[i].tasks| && states[i].tasks[t].Killing? && states[i].tasks[t].user == states[i + 1].tasks[t].user)
            || FoundOver(states[i], events[i], t, states[i + 1].tasks[t].user)
  {
    StepAt(states, events, base, i);
    hide TasksOk, Enabled, Init, Trace, Next, FoundOver, Started;
    KillingByLook(states[i], events[i], t);
  }

  lemma {:induction false} KillingSince(states: seq<State>, events: seq<Event>, base: int, i: nat, t: nat) returns (k: nat)
    requires Trace(states, events) && Init(states[0], base) && i < |states|
    requires t < |states[i].tasks| && states[i].tasks[t].Killing?
    ensures k < i && k < |events| && FoundOver(states[k], events[k], t, states[i].tasks[t].user)
  {
    assert |states| == |events| + 1;
    assert states[0].tasks == [];
    hide Init, Trace, FoundOver;
    KillingAt(states, events, base, i - 1, t);
    if FoundOver(states[i - 1], events[i - 1], t, states[i].tasks[t].user) {
      k := i - 1;
    } else {
      k := KillingSince(states, events, base, i - 1, t);
    }
  }

  lemma OnlyKillingKills(s: State, e: Event, c: nat)
    requires TasksOk(s) && Enabled(s, e) && c < |s.conns|
    ensures c < |Next(s, e).conns|
    ensures Next(s, e).conns[c].killed && !s.conns[c].killed
            ==> e.Kill? && e.t < |s.tasks| && s.tasks[e.t].Killing? && s.tasks[e.t].user == s.conns[c].user
  {
    hide ResetUser, Handle, Settle, OverQuota, UserByID, LiveConns, SnapshotOk, Unregistering;
    if Copies(e) {
      hide Next, Enabled, TaskOk, Copied;
      CopierNext(s, e);
      CopiedDiscardsNothing(s.conns[e.c], e);
    } else if e.ZeroUp? || e.ZeroDown? || e.SwapUp? || e.SwapDown? || e.Account? || e.Kill? {
      assert TaskOk(s.conns, s.tasks[e.t]);
    }
  }

  lemma NewIsNotKilled(s: State, e: Event, c: nat)
    requires TasksOk(s) && Enabled(s, e) && |s.conns| <= c < |Next(s, e).conns|
    ensures !Next(s, e).conns[c].killed
  {
    hide TaskOk, ResetUser, Handle, Settle, TasksOk;
    if e.Account? {
      var i, n := AccountIs(s, e);
    } else if !e.Serve? && !e.ClearTotals? && !e.Register? && !e.Admit? {
      hide Next, Enabled;
      QuietStep(s, e);
    }
  }

  /** A connection is killed only for its own user, and only if a flush found that user over quota (or gone). */
  lemma {:induction false} KilledWasOverQuota(states: seq<State>, events: seq<Event>, base: int, i: nat, c: nat)
    returns (k: nat, t: nat)
    requires Trace(states, events) && Init(states[0], base) && i < |states| && c < |states[i].conns| && states[i].conns[c].killed
    ensures k < i && k < |events| && FoundOver(states[k], events[k], t, states[i].conns[c].user)
  {
    assert |states| == |events| + 1;
    assert states[0].conns == [];
    hide TasksOk, Enabled, Init, Trace, Next, FoundOver, Started;
    var s, e := states[i - 1], events[i - 1];
    StepAt(states, events, base, i - 1);
    if c >= |s.conns| {
      NewIsNotKilled(s, e, c);
    } else {
      StepKeepsOwner(s, e, c);
      OnlyKillingKills(s, e, c);
      if s.conns[c].killed {
        k, t := KilledWasOverQuota(states, events, base, i - 1, c);
      } else {
        t := e.t;
        k := KillingSince(states, events, base, i - 1, t);
      }
    }
  }

  // ---------- and a flush reaches all their connections ----------

  /** The snapshot that thread `k` took. */
  function SnapshotOf(k: Task): Option<seq<nat>> {
    match k
    case Settling(_, _, _, flush) => flush
    case Cutting(_, snapshot, _) => Some(snapshot)
    case Killing(_, _, _, snapshot, _) => Some(snapshot)
    case _ => None
  }

  lemma StepKeepsSnapshot(s: State, e: Event, t: nat)
    requires TasksOk(s) && Enabled(s, e) && t < |s.tasks| && SnapshotOf(s.tasks[t]).Some? && e != CutDone(t)
    ensures t < |Next(s, e).tasks| && SnapshotOf(Next(s, e).tasks[t]) == SnapshotOf(s.tasks[t])
  {
    if StepOf(e, t) {
      hide TaskOk, OverQuota, UserByID, Settle;
    } else {
      OtherStepKeepsTask(s, e, t);
    }
  }

  lemma SnapshotTaken(s: State, e: Event, t: nat, c: nat)
    requires TasksOk(s) && Enabled(s, e) && e.Snapshot? && e.t == t && c < |s.conns| && s.conns[c].live
    ensures t < |Next(s, e).tasks| && SnapshotOf(Next(s, e).tasks[t]).Some? && c in SnapshotOf(Next(s, e).tasks[t]).value
  {
    hide TaskOk;
  }

  predicate InSnapshot(k: Task, c: nat) { SnapshotOf(k).Some? && c in SnapshotOf(k).value }

  lemma SnapshotAt(states: seq<State>, events: seq<Event>, base: int, i: nat, t: nat, c: nat)
    requires Trace(states, events) && Init(states[0], base) && i < |events|
    requires (events[i].Snapshot? && events[i].t == t && c < |states[i].conns| && states[i].conns[c].live)
             || (t < |states[i].tasks| && InSnapshot(states[i].tasks[t], c) && events[i] != CutDone(t))
    ensures t < |states[i + 1].tasks| && InSnapshot(states[i + 1].tasks[t], c)
  {
    StepAt(states, events, base, i);
    hide TasksOk, Enabled, Init, Trace, Next, Started, SnapshotOf;
    if events[i].Snapshot? && events[i].t == t && c < |states[i].conns| && states[i].conns[c].live {
      SnapshotTaken(states[i], events[i], t, c);
    } else {
      StepKeepsSnapshot(states[i], events[i], t);
    }
  }

  lemma {:induction false} SnapshotLasts(states: seq<State>, events: seq<Event>, base: int, h: nat, j: nat, t: nat, c: nat)
    requires Trace(states, events) && Init(states[0], base) && h < j < |states|
    requires events[h].Snapshot? && events[h].t == t && c < |states[h].conns| && states[h].conns[c].live
    requires forall k :: h < k < j ==> events[k] != CutDone(t)
    ensures t < |states[j].tasks| && InSnapshot(states[j].tasks[t], c)
  {
    assert |states| == |events| + 1;
    hide Init, Trace, InSnapshot;
    if h < j - 1 { SnapshotLasts(states, events, base, h, j - 1, t, c); }
    SnapshotAt(states, events, base, j - 1, t, c);
  }

  lemma OwnerAt(states: seq<State>, events: seq<Event>, base: int, i: nat, c: nat)
    requires Trace(states, events) && Init(states[0], base) && i < |events| && c < |states[i].conns|
    ensures c < |states[i + 1].conns| && states[i + 1].conns[c].user == states[i].conns[c].user
  {
    StepAt(states, events, base, i);
    hide TasksOk, Enabled, Init, Trace, Next, Started;
    StepKeepsOwner(states[i], events[i], c);
  }

  lemma {:induction false} OwnerStays(states: seq<State>, events: seq<Event>, base: int, h: nat, j: nat, c: nat)
    requires Trace(states, events) && Init(states[0], base) && h <= j < |states| && c < |states[h].conns|
    ensures c < |states[j].conns| && states[j].conns[c].user == states[h].conns[c].user
  {
    if h < j {
      assert |states| == |events| + 1;
      hide Init, Trace;
      OwnerStays(states, events, base, h, j - 1, c);
      OwnerAt(states, events, base, j - 1, c);
    }
  }

  /** A whole flush, from snapshot to end: every connection that was in the table at its start and belongs to a user who is
      over quota from the moment it turns to the users, and is not relieved meanwhile, is killed when it ends. */
  lemma FlushReachesEveryConnection(states: seq<State>, events: seq<Event>, base: int, h: nat, i: nat, j: nat, t: nat, c: nat)
    requires Trace(states, events) && Init(states[0], base) && h < i < j < |events|
    requires events[h].Snapshot? && events[h].t == t && c < |states[h].conns| && states[h].conns[c].live
    requires ListsFlush(states[i], events[i], t) && CutOff(states[i].db, states[h].conns[c].user)
    requires forall k :: i <= k < j ==> !Relieves(states[k], events[k], states[h].conns[c].user)
    requires events[j] == CutDone(t) && forall k :: h < k < j ==> events[k] != CutDone(t)
    ensures c < |states[j].conns| && states[j].conns[c].killed
  {
    assert |states| == |events| + 1;
    hide Init, Trace, CutOff, Relieves;
    assert events[i] != CutDone(t);
    SnapshotLasts(states, events, base, h, j, t, c);
    assert InSnapshot(states[j].tasks[t], c);
    OwnerStays(states, events, base, h, j, c);
    FlushReachesEveryUser(states, events, base, i, j, t, states[h].conns[c].user, 0);
    var x :| 0 <= x < |states[j].tasks[t].snapshot| && states[j].tasks[t].snapshot[x] == c;
    FlushReachesEveryUser(states, events, base, i, j, t, states[h].conns[c].user, x);
  }
}
