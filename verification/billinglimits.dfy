/** When a counter stays empty, and where the billing guarantee ends: UDP flows (udpLoop, readLoop and unregister in
    relay.go). */
module BillingLimits {
  import opened Stores
  import opened Registry
  import opened Samples
  import opened Billing
  import opened BillingSafety
  import opened BillingLedger

  // ---------- when a counter stays empty ----------

  predicate BytesIn(l: Copier) { (l.Looking? || l.Armed?) && l.n > 0 }

  /** No more of the stream will be counted: the copy loop has returned, or it has no counted bytes in hand and either its
      next look turns it away or it has read nothing and its socket is closed. */
  predicate Finished(c: Conn, d: Dir) {
    var l := LoopOf(c, d);
    || l.Gone?
    || (TurnedAway(c, d) && !(l.Armed? && l.n > 0))
    || (IsShut(c, d) && !BytesIn(l))
  }

  predicate Dry(c: Conn, d: Dir) {
    CounterOf(c, d) == 0 && Finished(c, d)
  }

  ghost predicate Continues(s: State, states: seq<State>, events: seq<Event>) {
    Trace(states, events) && states[0] == s
  }

  /** However the program goes on from `s`, the counter is empty at every moment. */
  ghost predicate StaysEmpty(s: State, c: nat, d: Dir)
    requires c < |s.conns|
  {
    forall states: seq<State>, events: seq<Event> :: Continues(s, states, events) ==>
      forall i :: 0 <= i < |states| ==> c < |states[i].conns| && CounterOf(states[i].conns[c], d) == 0
  }

  lemma CountedKeepsDry(c: Conn, x: Dir, d: Dir)
    requires LoopOf(c, x).Armed? && Dry(c, d)
    ensures Dry(Counted(c, x), d)
  {
  }

  lemma CopiedKeepsDry(c: Conn, s: State, e: Event, d: Dir)
    requires Enabled(s, e) && Copies(e) && c == s.conns[e.c] && Dry(c, d)
    ensures Dry(Copied(c, e), d)
  {
    hide Counted;
    if e.Add? { CountedKeepsDry(c, e.d, d); }
  }

  lemma CopierKeepsDry(s: State, e: Event, c: nat, d: Dir)
    requires TasksOk(s) && Enabled(s, e) && Copies(e) && c < |s.conns| && Dry(s.conns[c], d)
    ensures c < |Next(s, e).conns| && Dry(Next(s, e).conns[c], d)
  {
    hide TasksOk, Enabled, Next, Copied, Dry;
    CopierNext(s, e);
    if c == e.c { CopiedKeepsDry(s.conns[c], s, e, d); }
  }

  lemma EmptyingKeepsDry(s: State, e: Event, c: nat, d: Dir)
    requires TasksOk(s) && Enabled(s, e) && c < |s.conns| && Dry(s.conns[c], d)
    requires e.SwapUp? || e.SwapDown? || e.ZeroUp? || e.ZeroDown?
    ensures c < |Next(s, e).conns| && Dry(Next(s, e).conns[c], d)
  {
    assert TaskOk(s.conns, s.tasks[e.t]);
    hide SnapshotOk, Unregistering, BytesIn;
  }

  lemma ThreadKeepsDry(s: State, e: Event, c: nat, d: Dir)
    requires TasksOk(s) && Enabled(s, e) && c < |s.conns| && Dry(s.conns[c], d)
    requires e.Account? || e.Kill? || e.Unregister?
    ensures c < |Next(s, e).conns| && Dry(Next(s, e).conns[c], d)
  {
    assert TaskOk(s.conns, s.tasks[e.t]);
    hide Settle, SnapshotOk, Unregistering, BytesIn;
  }

  lemma StepKeepsDry(s: State, e: Event, c: nat, d: Dir)
    requires TasksOk(s) && Enabled(s, e) && c < |s.conns| && Dry(s.conns[c], d)
    ensures c < |Next(s, e).conns| && Dry(Next(s, e).conns[c], d)
  {
    if Copies(e) {
      CopierKeepsDry(s, e, c, d);
    } else if e.SwapUp? || e.SwapDown? || e.ZeroUp? || e.ZeroDown? {
      EmptyingKeepsDry(s, e, c, d);
    } else if e.Account? || e.Kill? || e.Unregister? {
      ThreadKeepsDry(s, e, c, d);
    } else {
      hide TaskOk, ResetUser, Handle, OverQuota, UserByID, LiveConns;
    }
  }

  lemma {:induction false} DryLasts(s: State, states: seq<State>, events: seq<Event>, c: nat, d: Dir, i: nat)
    requires Threads(s) && Continues(s, states, events) && c < |s.conns| && Dry(s.conns[c], d) && i < |states|
    ensures Threads(states[i]) && c < |states[i].conns| && Dry(states[i].conns[c], d)
  {
    if i > 0 {
      DryLasts(s, states, events, c, d, i - 1);
      assert Step(states[i - 1], events[i - 1], states[i]);
      StepKeepsThreads(states[i - 1], events[i - 1]);
      StepKeepsDry(states[i - 1], events[i - 1], c, d);
    }
  }

  /** One step on from the end of a continuation. */
  lemma GoOn(s: State, states: seq<State>, events: seq<Event>, e: Event) returns (states': seq<State>, events': seq<Event>)
    requires Continues(s, states, events) && Enabled(states[|states| - 1], e) && TasksOk(states[|states| - 1])
    ensures Continues(s, states', events') && |states'| == |states| + 1
    ensures states'[|states|] == Next(states[|states| - 1], e)
  {
    states', events' := states + [Next(states[|states| - 1], e)], events + [e];
    hide Next, Enabled, TasksOk;
    forall i | 0 <= i < |events'| ensures Step(states'[i], events'[i], states'[i + 1]) {
      if i < |events| { assert Step(states[i], events[i], states[i + 1]); }
    }
  }

  /** One more step of the connection's own loop. */
  lemma GoOnCopying(s: State, states: seq<State>, events: seq<Event>, e: Event) returns (states': seq<State>, events': seq<Event>)
    requires Continues(s, states, events) && Threads(states[|states| - 1]) && Enabled(states[|states| - 1], e) && Copies(e)
    ensures Continues(s, states', events') && Threads(states'[|states'| - 1])
    ensures e.c < |states[|states| - 1].conns| == |states'[|states'| - 1].conns|
    ensures states'[|states'| - 1].conns[e.c] == Copied(states[|states| - 1].conns[e.c], e)
  {
    assert |states| == |events| + 1;
    hide Next, Enabled, Copied, Copies;
    var last := states[|states| - 1];
    CopierNext(last, e);
    StepKeepsThreads(last, e);
    states', events' := GoOn(s, states, events, e);
  }

  /** Past its last look with bytes in hand, the next step of the loop shows them. */
  lemma ArmedShows(s: State, states: seq<State>, events: seq<Event>, c: nat, d: Dir)
    requires Continues(s, states, events) && Threads(states[|states| - 1])
    requires c < |s.conns| && c < |states[|states| - 1].conns|
    requires var l := LoopOf(states[|states| - 1].conns[c], d); l.Armed? && l.n > 0
    ensures !StaysEmpty(s, c, d)
  {
    hide Threads;
    var states', events' := GoOnCopying(s, states, events, Add(c, d));
    assert CounterOf(states'[|states'| - 1].conns[c], d) > 0;
  }

  /** With bytes read, the look comes first. */
  lemma LookingShows(s: State, states: seq<State>, events: seq<Event>, c: nat, d: Dir)
    requires Continues(s, states, events) && Threads(states[|states| - 1])
    requires c < |s.conns| && c < |states[|states| - 1].conns|
    requires var x := states[|states| - 1].conns[c]; LoopOf(x, d).Looking? && LoopOf(x, d).n > 0 && !TurnedAway(x, d)
    ensures !StaysEmpty(s, c, d)
  {
    hide Threads, StaysEmpty, Continues;
    var states', events' := GoOnCopying(s, states, events, Arm(c, d));
    ArmedShows(s, states', events', c, d);
  }

  /** A loop that has nothing in hand can still read a byte, unless its socket is closed. */
  lemma ReadingShows(s: State, states: seq<State>, events: seq<Event>, c: nat, d: Dir)
    requires Continues(s, states, events) && Threads(states[|states| - 1])
    requires c < |s.conns| && c < |states[|states| - 1].conns|
    requires var x := states[|states| - 1].conns[c]; LoopOf(x, d).Reading? && !IsShut(x, d) && !TurnedAway(x, d)
    ensures !StaysEmpty(s, c, d)
  {
    hide Threads, StaysEmpty, Continues;
    var states', events' := GoOnCopying(s, states, events, Fetch(c, d, 1));
    LookingShows(s, states', events', c, d);
  }

  /** The same with an empty datagram in hand, which is counted first. */
  lemma EmptyHandShows(s: State, states: seq<State>, events: seq<Event>, c: nat, d: Dir)
    requires Continues(s, states, events) && Threads(states[|states| - 1])
    requires c < |s.conns| && c < |states[|states| - 1].conns|
    requires var x := states[|states| - 1].conns[c]; LoopOf(x, d).Armed? && !IsShut(x, d) && !TurnedAway(x, d)
    ensures !StaysEmpty(s, c, d)
  {
    hide Threads, StaysEmpty, Continues;
    var states', events' := GoOnCopying(s, states, events, Add(c, d));
    ReadingShows(s, states', events', c, d);
  }

  /** Unless the counter is dry, at most five steps of its own loop show bytes in it. */
  lemma NotDryShows(s: State, c: nat, d: Dir)
    requires Threads(s) && c < |s.conns| && !Dry(s.conns[c], d)
    ensures !StaysEmpty(s, c, d)
  {
    hide Threads, Next, TasksOk;
    assert Continues(s, [s], []);
    var l := LoopOf(s.conns[c], d);
    if CounterOf(s.conns[c], d) > 0 {
      assert CounterOf([s][0].conns[c], d) > 0;
    } else {
      hide StaysEmpty, Continues;
      if l.Armed? && l.n > 0 {
        ArmedShows(s, [s], [], c, d);
      } else if l.Armed? {
        EmptyHandShows(s, [s], [], c, d);
      } else if l.Reading? {
        ReadingShows(s, [s], [], c, d);
      } else if l.n > 0 {
        LookingShows(s, [s], [], c, d);
      } else {
        var states, events := GoOnCopying(s, [s], [], Arm(c, d));
        EmptyHandShows(s, states, events, c, d);
      }
    }
  }

  /** At any moment of any run: a counter stays empty, whatever happens, if and only if it is empty now and its copy loop
      is finished. */
  lemma EmptyForGood(states: seq<State>, events: seq<Event>, base: int, i: nat, c: nat, d: Dir)
    requires Trace(states, events) && Init(states[0], base) && i < |states| && c < |states[i].conns|
    ensures StaysEmpty(states[i], c, d) <==> Dry(states[i].conns[c], d)
  {
    TraceIsGood(states, events, base, i);
    var s := states[i];
    if Dry(s.conns[c], d) {
      forall states': seq<State>, events': seq<Event> | Continues(s, states', events')
        ensures forall k :: 0 <= k < |states'| ==> c < |states'[k].conns| && CounterOf(states'[k].conns[c], d) == 0
      {
        forall k | 0 <= k < |states'| ensures c < |states'[k].conns| && CounterOf(states'[k].conns[c], d) == 0 {
          DryLasts(s, states', events', c, d, k);
        }
      }
    } else {
      NotDryShows(s, c, d);
    }
  }

  /** A read is on its way to the counter. */
  predicate InHand(c: Conn, d: Dir) {
    var l := LoopOf(c, d);
    BytesIn(l) && (l.Armed? || !TurnedAway(c, d))
  }

  /** So, at the moment a thread swaps a counter out: nothing will ever show in it again if and only if the copy loop is
      finished. When it is unregister that swaps, this is if and only if no read is in hand, which for TCP never is. */
  lemma SwapIsLast(states: seq<State>, events: seq<Event>, base: int, i: nat)
    requires Trace(states, events) && Init(states[0], base) && i < |events| && (events[i].SwapUp? || events[i].SwapDown?)
    ensures var t := events[i].t;
            && t < |states[i].tasks| && states[i].tasks[t].Settling? && states[i].tasks[t].queue != []
            && var c := states[i].tasks[t].queue[0];
               && c < |states[i].conns| == |states[i + 1].conns|
               && var d, x := if events[i].SwapUp? then Up else Down, states[i].conns[c];
                  && (StaysEmpty(states[i + 1], c, d) <==> Finished(x, d))
                  && (states[i].tasks[t].flush.None? ==> (Finished(x, d) <==> !InHand(x, d)) && (!x.udp ==> Finished(x, d)))
  {
    TraceIsGood(states, events, base, i);
    assert Step(states[i], events[i], states[i + 1]);
    var t := events[i].t;
    assert TaskOk(states[i].conns, states[i].tasks[t]);
    var c, d := states[i].tasks[t].queue[0], if events[i].SwapUp? then Up else Down;
    assert ConnOk(states[i].conns[c]);
    EmptyForGood(states, events, base, i + 1, c, d);
    SwappedOut(states[i], events[i], c, d);
    if states[i].tasks[t].flush.None? {
      assert Unregistering(states[i].conns[c], d.Down?, false);
      LeftTheTable(states[i].conns[c], d);
    }
    hide StaysEmpty, Dry, Next, Init, Enabled;
  }

  lemma SwappedOut(s: State, e: Event, c: nat, d: Dir)
    requires TasksOk(s) && Enabled(s, e) && (if d.Up? then e.SwapUp? else e.SwapDown?) && c == s.tasks[e.t].queue[0]
    ensures c < |s.conns| == |Next(s, e).conns| && (Dry(Next(s, e).conns[c], d) <==> Finished(s.conns[c], d))
  {
    assert TaskOk(s.conns, s.tasks[e.t]);
    hide SnapshotOk, Unregistering, BytesIn;
  }

  lemma LeftTheTable(c: Conn, d: Dir)
    requires ConnOk(c) && !c.live
    ensures (Finished(c, d) <==> !InHand(c, d)) && (!c.udp ==> Finished(c, d))
  {
  }

  /** Once both counters of a connection are dry, nothing is left behind, for TCP and UDP alike: whenever no thread holds
      its bytes, everything it ever counted was settled or discarded. */
  lemma DryFlowLeavesNothing(states: seq<State>, events: seq<Event>, base: int, i: nat, j: nat, c: nat)
    requires Trace(states, events) && Init(states[0], base) && i <= j < |states| && c < |states[i].conns|
    requires Dry(states[i].conns[c], Up) && Dry(states[i].conns[c], Down)
    requires forall t :: 0 <= t < |states[j].tasks| ==> Held(states[j].tasks[t], c) == 0
    ensures c < |states[j].conns| && var x := states[j].conns[c];
            x.up == 0 && x.down == 0 && Added(x) == x.book.settled + x.book.discarded
  {
    var later, rest := states[i..], events[i..];
    forall k | 0 <= k < |rest| ensures Step(later[k], rest[k], later[k + 1]) {
      assert Step(states[i + k], events[i + k], states[i + k + 1]);
    }
    TraceIsGood(states, events, base, i);
    DryLasts(states[i], later, rest, c, Up, j - i);
    DryLasts(states[i], later, rest, c, Down, j - i);
    NothingInFlight(states[j].tasks, c);
  }

  // ---------- UDP is not always dry when it is settled ----------

  /** One more step of a run. */
  lemma Extend(states: seq<State>, events: seq<Event>, base: int, e: Event) returns (states': seq<State>, events': seq<Event>)
    requires Trace(states, events) && Init(states[0], base) && Enabled(states[|states| - 1], e)
    ensures Trace(states', events') && states'[0] == states[0] && |states'| == |states| + 1
    ensures TasksOk(states[|states| - 1]) && states'[|states|] == Next(states[|states| - 1], e)
  {
    TraceIsGood(states, events, base, |states| - 1);
    hide Next, Enabled;
    states', events' := GoOn(states[0], states, events, e);
  }

  function SmallStart(): State { State(Sample(0, 0, 0), [], [], false, 0, _ => 0) }

  lemma SmallStartIsAStart()
    ensures Init(SmallStart(), 0)
  {
    SampleIsStarted(0, 0, 0);
    SampleLookups(0, 0, 0);
    forall k ensures SmallStart().cleared(k) == -Total0(SmallStart().db, k) {
      assert forall i :: 0 <= i < 2 ==>
          SmallStart().db.rules[i].total == SmallStart().db.users[i].total == SmallStart().db.groups[i].total == 0;
    }
  }

  /** The one flow of the run below. */
  function Flow(downLoop: Copier, shut: bool, live: bool, book: Book): Conn {
    Conn(true, 4, 2, 1, 0, 0, Reading, downLoop, false, shut, false, live, book)
  }

  const BLANK := Book(0, 0, 0, 0, 0, 0, 0, 0, false, false, false)

  lemma Spawning(s: State)
    requires s == SmallStart()
    ensures TasksOk(s) && Enabled(s, Spawn) && Next(s, Spawn) == s.(tasks := [Idle])
  {
    hide Sample;
  }

  lemma Admitting(s: State)
    requires s == SmallStart().(tasks := [Idle])
    ensures TasksOk(s) && Enabled(s, Admit(0, 4, 2)) && Next(s, Admit(0, 4, 2)) == s.(tasks := [Admitted(4, 2, 1)])
  {
    SampleLookups(0, 0, 0);
    assert UserByID(s.db.users, 2) == Some(Alice(0));
  }

  lemma Registering(s: State)
    requires s == SmallStart().(tasks := [Admitted(4, 2, 1)])
    ensures TasksOk(s) && Enabled(s, Event.Register(0, true))
    ensures Next(s, Event.Register(0, true)) == s.(tasks := [Idle], conns := [Flow(Reading, false, true, BLANK)])
  {
    hide Sample;
  }

  lemma FlowAdmitted() returns (states: seq<State>, events: seq<Event>)
    ensures |states| > 0 && Trace(states, events) && Init(states[0], 0)
    ensures states[|states| - 1] == SmallStart().(tasks := [Admitted(4, 2, 1)])
  {
    hide Init, SmallStart, Enabled, Next, TasksOk;
    SmallStartIsAStart();
    states, events := [SmallStart()], [];
    assert Trace(states, events);
    hide Trace;
    Spawning(states[0]);
    states, events := Extend(states, events, 0, Spawn);
    Admitting(states[1]);
    states, events := Extend(states, events, 0, Admit(0, 4, 2));
  }

  lemma FlowRegistered() returns (states: seq<State>, events: seq<Event>)
    ensures Trace(states, events) && Init(states[0], 0)
    ensures states[|states| - 1] == SmallStart().(conns := [Flow(Reading, false, true, BLANK)], tasks := [Idle])
  {
    hide Init, SmallStart, Enabled, Next, TasksOk;
    states, events := FlowAdmitted();
    hide Trace;
    Registering(states[|states| - 1]);
    states, events := Extend(states, events, 0, Event.Register(0, true));
  }

  lemma PacketInHand() returns (states: seq<State>, events: seq<Event>)
    ensures Trace(states, events) && Init(states[0], 0)
    ensures var s := states[|states| - 1];
            s.conns == [Flow(Armed(100), true, false, BLANK)] && s.tasks == [Settling([0], None, None, None)]
  {
    states, events := FlowRegistered();
    hide Init, Trace, Sample;
    states, events := Extend(states, events, 0, Fetch(0, Down, 100));
    states, events := Extend(states, events, 0, Arm(0, Down));
    states, events := Extend(states, events, 0, Shut(0, Down));
    states, events := Extend(states, events, 0, Unregister(0, 0));
  }

  /** An answer that the reading loop has past its killed check when the listener closes is counted after its flow was
      unregistered and settled: no thread holds the bytes, and a flush no longer finds the flow. */
  lemma UdpMayLeaveBytesBehind() returns (states: seq<State>, events: seq<Event>)
    ensures Trace(states, events) && Init(states[0], 0)
    ensures var s := states[|states| - 1];
            && |s.conns| == 1 && s.conns[0].udp && s.conns[0].book.ended && !s.conns[0].live && s.conns[0].down > 0
            && forall t :: 0 <= t < |s.tasks| ==> Held(s.tasks[t], 0) == 0
  {
    states, events := PacketInHand();
    hide Init, Trace, Settle;
    states, events := Extend(states, events, 0, SwapUp(0));
    states, events := Extend(states, events, 0, SwapDown(0));
    states, events := Extend(states, events, 0, Account(0, "today"));
    assert states[|states| - 1].conns == [Flow(Armed(100), true, false, BLANK.(ended := true))];
    states, events := Extend(states, events, 0, Add(0, Down));
  }
}
