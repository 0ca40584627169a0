/** What every interleaving of the billing threads keeps. */
module BillingSafety {
  import opened Stores
  import opened Registry
  import opened Billing

  // ---------- bytes in flight ----------

  /** Bytes of connection `c` that thread `k` has swapped out and not yet settled. */
  ghost function Held(k: Task, c: nat): nat {
    if k.Settling? && k.queue != [] && k.queue[0] == c then Or0(k.up) + Or0(k.down) else 0
  }

  ghost function InFlight(tasks: seq<Task>, c: nat): nat {
    if tasks == [] then 0 else InFlight(tasks[..|tasks| - 1], c) + Held(tasks[|tasks| - 1], c)
  }

  /** Added bytes that are neither pending, nor settled, nor discarded. */
  ghost function Missing(c: Conn): int {
    Added(c) - c.up - c.down - c.book.settled - c.book.discarded
  }

  lemma {:induction false} InFlightUpdate(tasks: seq<Task>, t: nat, k: Task, c: nat)
    requires t < |tasks|
    ensures InFlight(tasks[t := k], c) == InFlight(tasks, c) - Held(tasks[t], c) + Held(k, c)
  {
    var n := |tasks| - 1;
    if t < n {
      InFlightUpdate(tasks[..n], t, k, c);
      assert tasks[t := k][..n] == tasks[..n][t := k];
    } else {
      assert tasks[t := k][..n] == tasks[..n];
    }
  }

  lemma {:induction false} NothingInFlight(tasks: seq<Task>, c: nat)
    requires forall t :: 0 <= t < |tasks| ==> Held(tasks[t], c) == 0
    ensures InFlight(tasks, c) == 0
  {
    if tasks != [] { NothingInFlight(tasks[..|tasks| - 1], c); }
  }

  // ---------- the invariant on shared memory and threads ----------

  /** Bytes counted although the direction should have stopped: at most one read, and never a second one. */
  ghost predicate Straggler(stopped: bool, late: nat, spent: bool, max: nat) {
    if stopped then late <= max && (late > 0 ==> spent) else late == 0
  }

  ghost predicate DirOk(l: Copier, dry: bool, counter: nat, max: nat) {
    && (l.Looking? || l.Armed? ==> l.n <= max)
    && (dry ==> counter == 0 && l.Gone?)
  }

  /** TCP handlers unregister only after both directions have returned. */
  function MaxPast(c: Conn): nat { if c.udp then MaxRead(c) else 0 }

  ghost predicate ConnOk(c: Conn) {
    && DirOk(c.upLoop, c.book.upDry, c.up, MaxRead(c)) && DirOk(c.downLoop, c.book.downDry, c.down, MaxRead(c))
    && Straggler(c.killed, c.book.lateUp, !c.upLoop.Armed?, MaxRead(c))
    && Straggler(c.killed, c.book.lateDown, !c.downLoop.Armed?, MaxRead(c))
    && Straggler(!c.live, c.book.pastUp, !c.upLoop.Armed?, MaxPast(c))
    && Straggler(!c.live, c.book.pastDown, !c.downLoop.Armed? && !c.downLoop.Looking?, MaxPast(c))
    && (!c.live ==> if c.udp then c.downShut else c.upLoop.Gone? && c.downLoop.Gone?)
    && (!c.udp && c.book.ended ==> c.book.upDry && c.book.downDry)
  }

  ghost predicate TasksOk(s: State) {
    forall t :: 0 <= t < |s.tasks| ==> TaskOk(s.conns, s.tasks[t])
  }

  ghost predicate Threads(s: State) {
    && TasksOk(s)
    && (forall c :: 0 <= c < |s.conns| ==> ConnOk(s.conns[c]))
    && (forall c :: 0 <= c < |s.conns| ==> Missing(s.conns[c]) == InFlight(s.tasks, c))
  }

  /** What never changes or never goes back in a connection. */
  ghost predicate Later(a: Conn, b: Conn) {
    && b.udp == a.udp && b.rule == a.rule && b.user == a.user && b.group == a.group
    && (a.killed ==> b.killed) && (b.live ==> a.live)
    && (a.upLoop.Gone? ==> b.upLoop.Gone?) && (a.downLoop.Gone? ==> b.downLoop.Gone?)
    && (a.book.upDry ==> b.book.upDry) && (a.book.downDry ==> b.book.downDry)
  }

  ghost predicate AllLater(conns: seq<Conn>, conns': seq<Conn>) {
    |conns| <= |conns'| && forall c :: 0 <= c < |conns| ==> Later(conns[c], conns'[c])
  }

  lemma TaskStaysOk(conns: seq<Conn>, conns': seq<Conn>, k: Task)
    requires TaskOk(conns, k) && AllLater(conns, conns')
    ensures TaskOk(conns', k)
  {
  }

  lemma TasksStayOk(conns: seq<Conn>, conns': seq<Conn>, tasks: seq<Task>)
    requires (forall t :: 0 <= t < |tasks| ==> TaskOk(conns, tasks[t])) && AllLater(conns, conns')
    ensures forall t :: 0 <= t < |tasks| ==> TaskOk(conns', tasks[t])
  {
  }

  lemma OneLater(conns: seq<Conn>, c: nat, x: Conn)
    requires c < |conns| && Later(conns[c], x)
    ensures AllLater(conns, conns[c := x])
  {
  }

  /** A step that changes one connection. */
  lemma ConnStep(s: State, s': State, c: nat, x: Conn)
    requires Threads(s) && c < |s.conns|
    requires s'.conns == s.conns[c := x] && s'.tasks == s.tasks
    requires Later(s.conns[c], x) && ConnOk(x) && Missing(x) == Missing(s.conns[c])
    ensures Threads(s')
  {
  }

  /** A step that changes one thread, and holds nothing more or less by it. */
  lemma TaskStep(s: State, s': State, t: nat, k: Task)
    requires Threads(s) && t < |s.tasks|
    requires s'.conns == s.conns && s'.tasks == s.tasks[t := k]
    requires TaskOk(s.conns, k) && forall c :: 0 <= c < |s.conns| ==> Held(k, c) == Held(s.tasks[t], c)
    ensures Threads(s')
  {
    forall c | 0 <= c < |s.conns| ensures Missing(s.conns[c]) == InFlight(s'.tasks, c) {
      InFlightUpdate(s.tasks, t, k, c);
    }
  }

  /** A step that changes one connection and one thread, moving bytes between them. */
  lemma PairStep(s: State, s': State, c: nat, x: Conn, t: nat, k: Task)
    requires Threads(s) && c < |s.conns| && t < |s.tasks|
    requires s'.conns == s.conns[c := x] && s'.tasks == s.tasks[t := k]
    requires Later(s.conns[c], x) && ConnOk(x) && TaskOk(s'.conns, k)
    requires Missing(x) - Held(k, c) == Missing(s.conns[c]) - Held(s.tasks[t], c)
    requires forall d :: 0 <= d < |s.conns| && d != c ==> Held(k, d) == Held(s.tasks[t], d)
    ensures Threads(s')
  {
    OneLater(s.conns, c, x);
    TasksStayOk(s.conns, s'.conns, s.tasks);
    forall d | 0 <= d < |s.conns| ensures Missing(s'.conns[d]) == InFlight(s'.tasks, d) {
      InFlightUpdate(s.tasks, t, k, d);
    }
  }

  // ---------- the steps, one by one ----------

  /** What a step of a copy loop, or the closing of its socket, makes of a connection. */
  function Copied(c: Conn, e: Event): Conn {
    match e
    case Fetch(_, d, n) => WithLoop(c, d, Looking(n))
    case Arm(_, d) => if LoopOf(c, d).Looking? then WithLoop(c, d, Armed(LoopOf(c, d).n)) else c
    case Add(_, d) => Counted(c, d)
    case Leave(_, d) => WithLoop(c, d, Gone)
    case Shut(_, d) => WithShut(c, d)
    case _ => c
  }

  predicate Copies(e: Event) {
    e.Fetch? || e.Arm? || e.Add? || e.Leave? || e.Shut?
  }

  lemma FetchIsOk(c: Conn, d: Dir, n: nat)
    requires ConnOk(c) && LoopOf(c, d).Reading? && !IsShut(c, d) && n <= MaxRead(c)
    ensures var x := WithLoop(c, d, Looking(n)); Later(c, x) && ConnOk(x) && Missing(x) == Missing(c)
  {
  }

  lemma ArmIsOk(c: Conn, d: Dir)
    requires ConnOk(c) && LoopOf(c, d).Looking? && !TurnedAway(c, d)
    ensures var x := WithLoop(c, d, Armed(LoopOf(c, d).n)); Later(c, x) && ConnOk(x) && Missing(x) == Missing(c)
  {
  }

  lemma AddIsOk(c: Conn, d: Dir)
    requires ConnOk(c) && LoopOf(c, d).Armed?
    ensures var x := Counted(c, d); Later(c, x) && ConnOk(x) && Missing(x) == Missing(c)
  {
  }

  lemma LeaveIsOk(c: Conn, d: Dir)
    requires ConnOk(c) && (LoopOf(c, d).Reading? || LoopOf(c, d).Looking?)
    ensures var x := WithLoop(c, d, Gone); Later(c, x) && ConnOk(x) && Missing(x) == Missing(c)
  {
  }

  lemma ShutIsOk(c: Conn, d: Dir)
    requires ConnOk(c)
    ensures var x := WithShut(c, d); Later(c, x) && ConnOk(x) && Missing(x) == Missing(c)
  {
  }

  lemma CopierNext(s: State, e: Event)
    requires TasksOk(s) && Enabled(s, e) && Copies(e)
    ensures e.c < |s.conns| && Next(s, e) == s.(conns := s.conns[e.c := Copied(s.conns[e.c], e)])
  {
    hide TaskOk;
  }

  lemma CopiedIsOk(c: Conn, e: Event, s: State)
    requires ConnOk(c) && Copies(e) && Enabled(s, e) && c == s.conns[e.c]
    ensures var x := Copied(c, e); Later(c, x) && ConnOk(x) && Missing(x) == Missing(c)
  {
    hide ConnOk, Later, Missing, Counted, WithLoop, WithShut;
    match e
    case Fetch(_, d, n) => FetchIsOk(c, d, n);
    case Arm(_, d) => ArmIsOk(c, d);
    case Add(_, d) => AddIsOk(c, d);
    case Leave(_, d) => LeaveIsOk(c, d);
    case Shut(_, d) => ShutIsOk(c, d);
  }

  lemma CopierStep(s: State, e: Event)
    requires Threads(s) && Enabled(s, e) && Copies(e)
    ensures Threads(Next(s, e))
  {
    hide Enabled, Next, ConnOk, Later, Missing, Copied, TaskOk;
    CopierNext(s, e);
    CopiedIsOk(s.conns[e.c], e, s);
    hide Threads;
    ConnStep(s, Next(s, e), e.c, Copied(s.conns[e.c], e));
  }

  lemma RegisterStep(s: State, e: Event)
    requires Threads(s) && Enabled(s, e) && e.Register?
    ensures Threads(Next(s, e))
  {
    var s' := Next(s, e);
    TasksStayOk(s.conns, s'.conns, s.tasks);
    forall c | 0 <= c < |s'.conns| ensures Missing(s'.conns[c]) == InFlight(s'.tasks, c) {
      InFlightUpdate(s.tasks, e.t, Idle, c);
      if c == |s.conns| {
        forall t | 0 <= t < |s.tasks| ensures Held(s.tasks[t], c) == 0 {
          assert TaskOk(s.conns, s.tasks[t]);
        }
        NothingInFlight(s.tasks, c);
      }
    }
  }

  lemma SpawnStep(s: State, e: Event)
    requires Threads(s) && e.Spawn?
    ensures Threads(Next(s, e))
  {
    var s' := Next(s, e);
    forall c | 0 <= c < |s.conns| ensures InFlight(s'.tasks, c) == InFlight(s.tasks, c) {
      assert s'.tasks[..|s.tasks|] == s.tasks;
    }
  }

  lemma UnregisterStep(s: State, e: Event)
    requires Threads(s) && Enabled(s, e) && e.Unregister?
    ensures Threads(Next(s, e))
  {
    var s' := Next(s, e);
    PairStep(s, s', e.c, s'.conns[e.c], e.t, s'.tasks[e.t]);
  }

  lemma EmptiedIsOk(c: Conn)
    requires ConnOk(c)
    ensures var x := c.(up := 0, book := c.book.(upDry := c.upLoop.Gone?));
            Later(c, x) && ConnOk(x) && Missing(x) == Missing(c) + c.up
    ensures var x := c.(down := 0, book := c.book.(downDry := c.downLoop.Gone?));
            Later(c, x) && ConnOk(x) && Missing(x) == Missing(c) + c.down
  {
  }

  lemma SwapStep(s: State, e: Event)
    requires Threads(s) && Enabled(s, e) && (e.SwapUp? || e.SwapDown?)
    ensures Threads(Next(s, e))
  {
    hide ConnOk, Missing;
    var s' := Next(s, e);
    assert TaskOk(s.conns, s.tasks[e.t]);
    var c := s.tasks[e.t].queue[0];
    EmptiedIsOk(s.conns[c]);
    PairStep(s, s', c, s'.conns[c], e.t, s'.tasks[e.t]);
  }

  lemma AccountedIsOk(c: Conn, n: nat, ends: bool)
    requires ConnOk(c) && (ends ==> Unregistering(c, true, true))
    ensures var x := c.(book := c.book.(settled := c.book.settled + n, ended := c.book.ended || ends));
            Later(c, x) && ConnOk(x) && Missing(x) == Missing(c) - n
  {
  }

  lemma AccountStep(s: State, e: Event)
    requires Threads(s) && Enabled(s, e) && e.Account?
    ensures Threads(Next(s, e))
  {
    hide ConnOk, Missing, Settle;
    var s' := Next(s, e);
    assert TaskOk(s.conns, s.tasks[e.t]);
    var k := s.tasks[e.t];
    var c := k.queue[0];
    assert k.flush.None? ==> Unregistering(s.conns[k.queue[0]], true, true);
    AccountedIsOk(s.conns[c], Or0(k.up) + Or0(k.down), k.flush.None?);
    OneLater(s.conns, c, s'.conns[c]);
    TaskStaysOk(s.conns, s'.conns, k);
    AccountTaskOk(s'.conns, k);
    PairStep(s, s', c, s'.conns[c], e.t, s'.tasks[e.t]);
  }

  lemma AccountTaskOk(conns: seq<Conn>, k: Task)
    requires k.Settling? && k.queue != [] && TaskOk(conns, k)
    ensures TaskOk(conns, Settling(k.queue[1..], None, None, k.flush))
  {
  }

  lemma FlushStep(s: State, e: Event)
    requires Threads(s) && Enabled(s, e) && (e.Snapshot? || e.QueueDone? || e.Look? || e.CutDone?)
    ensures Threads(Next(s, e))
  {
    var s' := Next(s, e);
    assert TaskOk(s.conns, s.tasks[e.t]);
    assert e.Snapshot? ==> forall i :: 0 <= i < |e.order| ==> e.order[i] in e.order;
    TaskStep(s, s', e.t, s'.tasks[e.t]);
  }

  lemma KillStep(s: State, e: Event)
    requires Threads(s) && Enabled(s, e) && e.Kill?
    ensures Threads(Next(s, e))
  {
    if s.tasks[e.t].left == [] {
      assert TaskOk(s.conns, s.tasks[e.t]);
      TaskStep(s, Next(s, e), e.t, Next(s, e).tasks[e.t]);
    } else {
      KillOne(s, e);
    }
  }

  lemma KilledIsOk(c: Conn)
    requires ConnOk(c)
    ensures var x := c.(killed := true); Later(c, x) && ConnOk(x) && Missing(x) == Missing(c)
  {
  }

  lemma KillOne(s: State, e: Event)
    requires Threads(s) && Enabled(s, e) && e.Kill? && s.tasks[e.t].left != []
    ensures Threads(Next(s, e))
  {
    hide ConnOk, Missing;
    var s' := Next(s, e);
    var k := s.tasks[e.t];
    assert TaskOk(s.conns, k);
    var c := k.left[0];
    KilledIsOk(s.conns[c]);
    assert s'.conns == s.conns[c := s'.conns[c]];
    OneLater(s.conns, c, s'.conns[c]);
    KilledTaskOk(s.conns, s'.conns, k);
    hide TaskOk, SnapshotOk;
    PairStep(s, s', c, s'.conns[c], e.t, s'.tasks[e.t]);
  }

  lemma KilledTaskOk(conns: seq<Conn>, conns': seq<Conn>, k: Task)
    requires k.Killing? && k.left != [] && TaskOk(conns, k) && AllLater(conns, conns')
    requires conns[k.left[0]].user == k.user ==> conns'[k.left[0]].killed
    ensures TaskOk(conns', k.(left := k.left[1..]))
  {
  }

  lemma ResetStep(s: State, e: Event)
    requires Threads(s) && Enabled(s, e) && (e.LockTable? || e.UnlockTable? || e.ClearTotals?)
    ensures Threads(Next(s, e))
  {
    var s' := Next(s, e);
    assert TaskOk(s.conns, s.tasks[e.t]);
    TaskStep(s, s', e.t, s'.tasks[e.t]);
  }

  lemma DiscardedIsOk(c: Conn)
    requires ConnOk(c)
    ensures var x := c.(up := 0, book := c.book.(discarded := c.book.discarded + c.up));
            Later(c, x) && ConnOk(x) && Missing(x) == Missing(c)
    ensures var x := c.(down := 0, book := c.book.(discarded := c.book.discarded + c.down));
            Later(c, x) && ConnOk(x) && Missing(x) == Missing(c)
  {
  }

  lemma ZeroUpStep(s: State, e: Event)
    requires Threads(s) && Enabled(s, e) && e.ZeroUp?
    ensures Threads(Next(s, e))
  {
    hide ConnOk, Missing;
    assert TaskOk(s.conns, s.tasks[e.t]);
    DiscardedIsOk(s.conns[e.c]);
    PairStep(s, Next(s, e), e.c, Next(s, e).conns[e.c], e.t, Next(s, e).tasks[e.t]);
  }

  lemma ZeroDownStep(s: State, e: Event)
    requires Threads(s) && Enabled(s, e) && e.ZeroDown?
    ensures Threads(Next(s, e))
  {
    hide ConnOk, Missing;
    assert TaskOk(s.conns, s.tasks[e.t]);
    var c := s.tasks[e.t].half.value;
    DiscardedIsOk(s.conns[c]);
    PairStep(s, Next(s, e), c, Next(s, e).conns[c], e.t, Next(s, e).tasks[e.t]);
  }

  lemma RequestStep(s: State, e: Event)
    requires Threads(s) && Enabled(s, e) && (e.Serve? || e.Admit?)
    ensures Threads(Next(s, e))
  {
    hide Handle, TaskOk;
    if e.Admit? {
      assert TaskOk(s.conns, Next(s, e).tasks[e.t]) by { AdmittedIsOk(s.conns, Next(s, e).tasks[e.t]); }
      TaskStep(s, Next(s, e), e.t, Next(s, e).tasks[e.t]);
    }
  }

  lemma AdmittedIsOk(conns: seq<Conn>, k: Task)
    requires k.Admitted?
    ensures TaskOk(conns, k)
  {
  }

  /** Every atomic step of every thread keeps the balance of every connection. */
  lemma StepKeepsThreads(s: State, e: Event)
    requires Threads(s) && Enabled(s, e)
    ensures Threads(Next(s, e))
  {
    hide Next, Enabled, Threads;
    match e
    case Spawn => SpawnStep(s, e);
    case Serve(_) => RequestStep(s, e);
    case Admit(_, _, _) => RequestStep(s, e);
    case Register(_, _) => RegisterStep(s, e);
    case Fetch(_, _, _) => CopierStep(s, e);
    case Arm(_, _) => CopierStep(s, e);
    case Add(_, _) => CopierStep(s, e);
    case Leave(_, _) => CopierStep(s, e);
    case Shut(_, _) => CopierStep(s, e);
    case Unregister(_, _) => UnregisterStep(s, e);
    case SwapUp(_) => SwapStep(s, e);
    case SwapDown(_) => SwapStep(s, e);
    case Account(_, _) => AccountStep(s, e);
    case Snapshot(_, _) => FlushStep(s, e);
    case QueueDone(_, _) => FlushStep(s, e);
    case Look(_, _) => FlushStep(s, e);
    case CutDone(_) => FlushStep(s, e);
    case Kill(_) => KillStep(s, e);
    case LockTable(_, _) => ResetStep(s, e);
    case UnlockTable(_) => ResetStep(s, e);
    case ClearTotals(_) => ResetStep(s, e);
    case ZeroUp(_, _) => ZeroUpStep(s, e);
    case ZeroDown(_) => ZeroDownStep(s, e);
  }
}
