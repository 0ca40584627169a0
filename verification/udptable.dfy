/** The UDP session tables and the connection table, under all interleavings (udpLoop, register, unregister in relay.go). */
module UdpTable {

  /** A registered flow: which loop made it, for which client, and what the rest of the program sees of it. */
  datatype Flow = Flow(table: nat, addr: int, killed: bool, registered: bool)

  /** The receive loop of one listener, between two accesses to shared state. */
  datatype Loop =
    | Receiving
    | Locked(addr: int)                // holds the table lock, about to look the client up
    | Fresh(addr: int, flow: nat)      // holds the lock; registered, not yet in the table
    | Found(addr: int, flow: nat)      // holds the lock; about to look at the killed flag
    | Dropping(addr: int, flow: nat)   // holds the lock; unregistered, not yet deleted
    | Sending(addr: int, flow: nat)    // lock released, passing the packet on
    | Failed(addr: int, flow: nat)     // write failed; unregistered, waiting for the lock to delete
    | Closing(todo: set<int>)          // listener closed; holds the lock, unregistering what is left
    | Dead

  /** The cleaner of the same table. */
  datatype Cleaner =
    | Sleeping
    | Sweeping(rest: set<int>)                         // holds the lock
    | Reaping(addr: int, flow: nat, rest: set<int>)    // holds the lock; unregistered, not yet deleted

  datatype Table = Table(sessions: map<int, nat>, loop: Loop, cleaner: Cleaner)

  datatype State = State(flows: seq<Flow>, tables: seq<Table>)

  predicate LoopHolds(tb: Table) {
    tb.loop.Locked? || tb.loop.Fresh? || tb.loop.Found? || tb.loop.Dropping? || tb.loop.Closing?
  }

  predicate CleanerHolds(tb: Table) {
    !tb.cleaner.Sleeping?
  }

  // ---------- steps ----------

  datatype Event =
    | Open
    | Kill(c: nat)
    | Receive(t: nat, addr: int)
    | Reject(t: nat)
    | Register(t: nat)
    | Insert(t: nat)
    | Lookup(t: nat)
    | DropKilled(t: nat)
    | Delete(t: nat)
    | Pass(t: nat)
    | Sent(t: nat)
    | WriteFails(t: nat)
    | DeleteFailed(t: nat)
    | ReadFails(t: nat)
    | CloseOne(t: nat, addr: int)
    | CloseDone(t: nat)
    | Tick(t: nat)
    | Skip(t: nat, addr: int)
    | Reap(t: nat, addr: int)
    | ReapDone(t: nat)
    | SweepDone(t: nat)

  ghost predicate Enabled(s: State, e: Event) {
    match e
    case Open => true
    case Kill(c) => c < |s.flows|
    case Receive(t, _) => t < |s.tables| && s.tables[t].loop.Receiving? && !CleanerHolds(s.tables[t])
    case Reject(t) => t < |s.tables| && s.tables[t].loop.Locked? && s.tables[t].loop.addr !in s.tables[t].sessions
    case Register(t) => t < |s.tables| && s.tables[t].loop.Locked? && s.tables[t].loop.addr !in s.tables[t].sessions
    case Insert(t) => t < |s.tables| && s.tables[t].loop.Fresh?
    case Lookup(t) => t < |s.tables| && s.tables[t].loop.Locked? && s.tables[t].loop.addr in s.tables[t].sessions
    case DropKilled(t) => t < |s.tables| && s.tables[t].loop.Found? && Killed(s, s.tables[t].loop.flow)
    case Delete(t) => t < |s.tables| && s.tables[t].loop.Dropping?
    case Pass(t) => t < |s.tables| && s.tables[t].loop.Found? && !Killed(s, s.tables[t].loop.flow)
    case Sent(t) => t < |s.tables| && s.tables[t].loop.Sending?
    case WriteFails(t) => t < |s.tables| && s.tables[t].loop.Sending?
    case DeleteFailed(t) => t < |s.tables| && s.tables[t].loop.Failed? && !CleanerHolds(s.tables[t])
    case ReadFails(t) => t < |s.tables| && s.tables[t].loop.Receiving? && !CleanerHolds(s.tables[t])
    case CloseOne(t, a) => t < |s.tables| && s.tables[t].loop.Closing? && a in s.tables[t].loop.todo && a in s.tables[t].sessions
    case CloseDone(t) => t < |s.tables| && s.tables[t].loop.Closing? && s.tables[t].loop.todo == {}
    case Tick(t) => t < |s.tables| && s.tables[t].cleaner.Sleeping? && !LoopHolds(s.tables[t])
    case Skip(t, a) => t < |s.tables| && s.tables[t].cleaner.Sweeping? && a in s.tables[t].cleaner.rest
    case Reap(t, a) => t < |s.tables| && s.tables[t].cleaner.Sweeping? && a in s.tables[t].cleaner.rest && a in s.tables[t].sessions
    case ReapDone(t) => t < |s.tables| && s.tables[t].cleaner.Reaping?
    case SweepDone(t) => t < |s.tables| && s.tables[t].cleaner.Sweeping? && s.tables[t].cleaner.rest == {}
  }

  predicate Killed(s: State, c: nat) {
    c < |s.flows| && s.flows[c].killed
  }

  /** unregister: removing a flow that is not there is no error, so it may happen twice. */
  function Unregistered(flows: seq<Flow>, c: nat): seq<Flow> {
    if c < |flows| then flows[c := flows[c].(registered := false)] else flows
  }

  /** The step of the loop or the cleaner of table `tb`, number `t`: the flows and the table after it. */
  function Move(flows: seq<Flow>, t: nat, tb: Table, e: Event): (seq<Flow>, Table) {
    match (e, tb.loop, tb.cleaner)
    case (Receive(_, a), _, _) => (flows, tb.(loop := Locked(a)))
    case (Reject(_), _, _) => (flows, tb.(loop := Receiving))
    case (Register(_), Locked(a), _) => (flows + [Flow(t, a, false, true)], tb.(loop := Fresh(a, |flows|)))
    case (Insert(_), Fresh(a, c), _) => (flows, tb.(sessions := tb.sessions[a := c], loop := Found(a, c)))
    case (Lookup(_), Locked(a), _) => (flows, if a in tb.sessions then tb.(loop := Found(a, tb.sessions[a])) else tb)
    case (DropKilled(_), Found(a, c), _) => (Unregistered(flows, c), tb.(loop := Dropping(a, c)))
    case (Delete(_), Dropping(a, _), _) => (flows, tb.(sessions := tb.sessions - {a}, loop := Receiving))
    case (Pass(_), Found(a, c), _) => (flows, tb.(loop := Sending(a, c)))
    case (Sent(_), _, _) => (flows, tb.(loop := Receiving))
    case (WriteFails(_), Sending(a, c), _) => (Unregistered(flows, c), tb.(loop := Failed(a, c)))
    case (DeleteFailed(_), Failed(a, _), _) => (flows, tb.(sessions := tb.sessions - {a}, loop := Receiving))
    case (ReadFails(_), _, _) => (flows, tb.(loop := Closing(tb.sessions.Keys)))
    case (CloseOne(_, a), Closing(todo), _) =>
      (if a in tb.sessions then Unregistered(flows, tb.sessions[a]) else flows, tb.(loop := Closing(todo - {a})))
    case (CloseDone(_), _, _) => (flows, tb.(loop := Dead))
    case (Tick(_), _, _) => (flows, tb.(cleaner := Sweeping(tb.sessions.Keys)))
    case (Skip(_, a), _, Sweeping(rest)) => (flows, tb.(cleaner := Sweeping(rest - {a})))
    case (Reap(_, a), _, Sweeping(rest)) =>
      if a in tb.sessions then
        (Unregistered(flows, tb.sessions[a]), tb.(cleaner := Reaping(a, tb.sessions[a], rest - {a})))
      else (flows, tb)
    case (ReapDone(_), _, Reaping(a, _, rest)) => (flows, tb.(sessions := tb.sessions - {a}, cleaner := Sweeping(rest)))
    case (SweepDone(_), _, _) => (flows, tb.(cleaner := Sleeping))
    case _ => (flows, tb)
  }

  function Next(s: State, e: Event): State
    requires Enabled(s, e)
  {
    match e
    case Open => s.(tables := s.tables + [Table(map[], Receiving, Sleeping)])
    case Kill(c) => s.(flows := s.flows[c := s.flows[c].(killed := true)])
    case _ =>
      var (flows, tb) := Move(s.flows, e.t, s.tables[e.t], e);
      State(flows, s.tables[e.t := tb])
  }

  // ---------- the invariant ----------

  /** Flow `c` sits in the table under its own client. */
  predicate InTable(flows: seq<Flow>, tb: Table, c: nat)
    requires c < |flows|
  {
    flows[c].addr in tb.sessions && tb.sessions[flows[c].addr] == c
  }

  predicate JustMade(tb: Table, c: nat) { tb.loop.Fresh? && tb.loop.flow == c }

  predicate BeingRemoved(tb: Table, c: nat) {
    || ((tb.loop.Dropping? || tb.loop.Failed?) && tb.loop.flow == c)
    || (tb.cleaner.Reaping? && tb.cleaner.flow == c)
  }

  predicate Finished(tb: Table, addr: int) {
    tb.loop.Dead? || (tb.loop.Closing? && addr !in tb.loop.todo)
  }

  ghost predicate Mine(flows: seq<Flow>, t: nat, c: nat, addr: int) {
    c < |flows| && flows[c].table == t && flows[c].addr == addr
  }

  ghost predicate LoopOk(flows: seq<Flow>, t: nat, tb: Table) {
    match tb.loop
    case Fresh(a, c) => Mine(flows, t, c, a) && a !in tb.sessions
    case Found(a, c) => Mine(flows, t, c, a) && a in tb.sessions && tb.sessions[a] == c
    case Dropping(a, c) => Mine(flows, t, c, a) && a in tb.sessions && tb.sessions[a] == c
    case Sending(a, c) => Mine(flows, t, c, a) && (a in tb.sessions ==> tb.sessions[a] == c)
    case Failed(a, c) => Mine(flows, t, c, a) && (a in tb.sessions ==> tb.sessions[a] == c)
    case Closing(todo) => todo <= tb.sessions.Keys
    case _ => true
  }

  ghost predicate CleanerOk(flows: seq<Flow>, t: nat, tb: Table) {
    match tb.cleaner
    case Sleeping => true
    case Sweeping(rest) => rest <= tb.sessions.Keys
    case Reaping(a, c, rest) => Mine(flows, t, c, a) && a in tb.sessions && tb.sessions[a] == c && rest <= tb.sessions.Keys - {a}
  }

  /** A flow of this table is registered exactly when it is in the table and nobody is removing it, or was just made. */
  ghost predicate Exact(flows: seq<Flow>, t: nat, tb: Table) {
    forall c :: 0 <= c < |flows| && flows[c].table == t ==>
      (flows[c].registered <==> JustMade(tb, c) || (InTable(flows, tb, c) && !BeingRemoved(tb, c) && !Finished(tb, flows[c].addr)))
  }

  ghost predicate TableOk(flows: seq<Flow>, t: nat, tb: Table) {
    && !(LoopHolds(tb) && CleanerHolds(tb))
    && (forall a :: a in tb.sessions ==> Mine(flows, t, tb.sessions[a], a))
    && LoopOk(flows, t, tb) && CleanerOk(flows, t, tb) && Exact(flows, t, tb)
  }

  ghost predicate Inv(s: State) {
    && (forall t :: 0 <= t < |s.tables| ==> TableOk(s.flows, t, s.tables[t]))
    && (forall c :: 0 <= c < |s.flows| ==> s.flows[c].table < |s.tables|)
  }

  /** Only what table `u` cares about: its own flows, apart from the killed flag. */
  ghost predicate SameFor(flows: seq<Flow>, flows': seq<Flow>, u: nat) {
    && |flows| <= |flows'|
    && (forall c :: 0 <= c < |flows| ==> flows'[c].table == flows[c].table && flows'[c].addr == flows[c].addr)
    && (forall c :: 0 <= c < |flows| && flows[c].table == u ==> flows'[c].registered == flows[c].registered)
    && (forall c :: |flows| <= c < |flows'| ==> flows'[c].table != u)
  }

  lemma OthersUntouched(flows: seq<Flow>, flows': seq<Flow>, u: nat, tb: Table)
    requires TableOk(flows, u, tb) && SameFor(flows, flows', u)
    ensures TableOk(flows', u, tb)
  {
  }

  // ---------- steps keep it ----------

  lemma LoopStepKeepsTable(s: State, e: Event)
    requires Inv(s) && Enabled(s, e) && !e.Open? && !e.Kill?
    requires e.Receive? || e.Reject? || e.Insert? || e.Lookup? || e.Pass? || e.Sent? || e.Delete? || e.DeleteFailed?
             || e.ReadFails? || e.CloseDone?
    ensures var (flows, tb) := Move(s.flows, e.t, s.tables[e.t], e); flows == s.flows && TableOk(flows, e.t, tb)
  {
    if e.Receive? || e.Reject? || e.Insert? || e.Lookup? || e.Pass? || e.Sent? {
      PacketKeepsTable(s, e);
    } else {
      EndKeepsTable(s, e);
    }
  }

  lemma PacketKeepsTable(s: State, e: Event)
    requires Inv(s) && Enabled(s, e) && (e.Receive? || e.Reject? || e.Insert? || e.Lookup? || e.Pass? || e.Sent?)
    ensures var (flows, tb) := Move(s.flows, e.t, s.tables[e.t], e); flows == s.flows && TableOk(flows, e.t, tb)
  {
    assert TableOk(s.flows, e.t, s.tables[e.t]);
    hide Inv, CleanerOk;
  }

  lemma EndKeepsTable(s: State, e: Event)
    requires Inv(s) && Enabled(s, e) && (e.Delete? || e.DeleteFailed? || e.ReadFails? || e.CloseDone?)
    ensures var (flows, tb) := Move(s.flows, e.t, s.tables[e.t], e); flows == s.flows && TableOk(flows, e.t, tb)
  {
    assert TableOk(s.flows, e.t, s.tables[e.t]);
    hide Inv;
  }

  lemma LoopUnregisters(s: State, e: Event)
    requires Inv(s) && Enabled(s, e) && (e.DropKilled? || e.WriteFails? || e.CloseOne?)
    ensures var (flows, tb) := Move(s.flows, e.t, s.tables[e.t], e);
            TableOk(flows, e.t, tb) && forall u :: u != e.t ==> SameFor(s.flows, flows, u)
  {
    if e.CloseOne? { ClosingUnregisters(s, e); } else { FailureUnregisters(s, e); }
  }

  lemma FailureUnregisters(s: State, e: Event)
    requires Inv(s) && Enabled(s, e) && (e.DropKilled? || e.WriteFails?)
    ensures var (flows, tb) := Move(s.flows, e.t, s.tables[e.t], e);
            TableOk(flows, e.t, tb) && forall u :: u != e.t ==> SameFor(s.flows, flows, u)
  {
    var tb0 := s.tables[e.t];
    assert TableOk(s.flows, e.t, tb0);
    var (flows, tb) := Move(s.flows, e.t, tb0, e);
    forall a | a in tb.sessions ensures Mine(flows, e.t, tb.sessions[a], a) {
      assert Mine(s.flows, e.t, tb0.sessions[a], a);
    }
  }

  lemma ClosingUnregisters(s: State, e: Event)
    requires Inv(s) && Enabled(s, e) && e.CloseOne?
    ensures var (flows, tb) := Move(s.flows, e.t, s.tables[e.t], e);
            TableOk(flows, e.t, tb) && forall u :: u != e.t ==> SameFor(s.flows, flows, u)
  {
  }

  lemma CleanerUnregisters(s: State, e: Event)
    requires Inv(s) && Enabled(s, e) && e.Reap?
    ensures var (flows, tb) := Move(s.flows, e.t, s.tables[e.t], e);
            TableOk(flows, e.t, tb) && forall u :: u != e.t ==> SameFor(s.flows, flows, u)
  {
    var tb0 := s.tables[e.t];
    assert TableOk(s.flows, e.t, tb0);
    var (flows, tb) := Move(s.flows, e.t, tb0, e);
    forall a | a in tb.sessions ensures Mine(flows, e.t, tb.sessions[a], a) {
      assert Mine(s.flows, e.t, tb0.sessions[a], a);
    }
  }

  lemma RegisterStepKeepsTable(s: State, e: Event)
    requires Inv(s) && Enabled(s, e) && e.Register?
    ensures var (flows, tb) := Move(s.flows, e.t, s.tables[e.t], e);
            TableOk(flows, e.t, tb) && forall u :: u != e.t ==> SameFor(s.flows, flows, u)
  {
  }

  lemma CleanerStepKeepsTable(s: State, e: Event)
    requires Inv(s) && Enabled(s, e) && (e.Tick? || e.Skip? || e.ReapDone? || e.SweepDone?)
    ensures var (flows, tb) := Move(s.flows, e.t, s.tables[e.t], e); flows == s.flows && TableOk(flows, e.t, tb)
  {
    assert TableOk(s.flows, e.t, s.tables[e.t]);
  }

  lemma Assemble(s: State, t: nat, flows: seq<Flow>, tb: Table)
    requires Inv(s) && t < |s.tables| && TableOk(flows, t, tb)
    requires forall u :: 0 <= u < |s.tables| && u != t ==> SameFor(s.flows, flows, u)
    requires |s.flows| <= |flows| && forall c :: 0 <= c < |flows| ==> flows[c].table < |s.tables|
    ensures Inv(State(flows, s.tables[t := tb]))
  {
    forall u | 0 <= u < |s.tables| && u != t ensures TableOk(flows, u, s.tables[u]) {
      OthersUntouched(s.flows, flows, u, s.tables[u]);
    }
  }

  lemma MoveKeepsInv(s: State, e: Event)
    requires Inv(s) && Enabled(s, e) && !e.Open? && !e.Kill?
    ensures Inv(Next(s, e))
  {
    var (flows, tb) := Move(s.flows, e.t, s.tables[e.t], e);
    if e.DropKilled? || e.WriteFails? || e.CloseOne? {
      LoopUnregisters(s, e);
    } else if e.Reap? {
      CleanerUnregisters(s, e);
    } else if e.Register? {
      RegisterStepKeepsTable(s, e);
    } else if e.Tick? || e.Skip? || e.ReapDone? || e.SweepDone? {
      CleanerStepKeepsTable(s, e);
    } else {
      LoopStepKeepsTable(s, e);
    }
    Assemble(s, e.t, flows, tb);
  }

  lemma StepKeepsInv(s: State, e: Event)
    requires Inv(s) && Enabled(s, e)
    ensures Inv(Next(s, e))
  {
    match e
    case Open =>
      assert TableOk(s.flows, |s.tables|, Table(map[], Receiving, Sleeping));
    case Kill(c) =>
      forall u | 0 <= u < |s.tables| ensures TableOk(Next(s, e).flows, u, s.tables[u]) {
        OthersUntouched(s.flows, Next(s, e).flows, u, s.tables[u]);
      }
    case _ => MoveKeepsInv(s, e);
  }

  // ---------- whole runs ----------

  ghost predicate Trace(states: seq<State>, events: seq<Event>) {
    && |states| == |events| + 1 && states[0] == State([], [])
    && forall i :: 0 <= i < |events| ==> Enabled(states[i], events[i]) && states[i + 1] == Next(states[i], events[i])
  }

  lemma {:induction false} TraceKeepsInv(states: seq<State>, events: seq<Event>, i: nat)
    requires Trace(states, events) && i < |states|
    ensures Inv(states[i])
  {
    if i > 0 {
      TraceKeepsInv(states, events, i - 1);
      StepKeepsInv(states[i - 1], events[i - 1]);
    }
  }

  /** No thread of the table is between registering and inserting, or between unregistering and deleting. */
  predicate Quiet(tb: Table) {
    !tb.loop.Fresh? && !tb.loop.Dropping? && !tb.loop.Failed? && !tb.cleaner.Reaping?
  }

  predicate Live(tb: Table) {
    !tb.loop.Closing? && !tb.loop.Dead?
  }

  /** In a live, quiet table the sessions are exactly the registered flows of that table. */
  lemma SessionsAreTheRegisteredFlows(states: seq<State>, events: seq<Event>, i: nat, t: nat, c: nat)
    requires Trace(states, events) && i < |states| && t < |states[i].tables| && c < |states[i].flows|
    requires states[i].flows[c].table == t && Live(states[i].tables[t]) && Quiet(states[i].tables[t])
    ensures states[i].flows[c].registered <==> InTable(states[i].flows, states[i].tables[t], c)
  {
    TraceKeepsInv(states, events, i);
    assert TableOk(states[i].flows, t, states[i].tables[t]);
  }

  /** A packet is passed on only while its flow is registered and not killed: after an unregister none is, except one already past its
      look at the killed flag. */
  lemma PassedMeansRegistered(states: seq<State>, events: seq<Event>, i: nat)
    requires Trace(states, events) && i < |events| && events[i].Pass?
    ensures var t := events[i].t;
            && t < |states[i].tables| && states[i].tables[t].loop.Found?
            && var c := states[i].tables[t].loop.flow;
               c < |states[i].flows| && states[i].flows[c].registered && !states[i].flows[c].killed
  {
    TraceKeepsInv(states, events, i);
    assert TableOk(states[i].flows, events[i].t, states[i].tables[events[i].t]);
  }

  /** At every moment, quiet or not, a client has at most one registered flow in a table. */
  lemma OneFlowPerClient(states: seq<State>, events: seq<Event>, i: nat, c: nat, d: nat)
    requires Trace(states, events) && i < |states| && c < |states[i].flows| && d < |states[i].flows|
    requires states[i].flows[c].registered && states[i].flows[d].registered
    requires states[i].flows[c].table == states[i].flows[d].table && states[i].flows[c].addr == states[i].flows[d].addr
    ensures c == d
  {
    TraceKeepsInv(states, events, i);
    var t := states[i].flows[c].table;
    assert TableOk(states[i].flows, t, states[i].tables[t]);
  }

  /** When a listener is gone, none of its flows is left in the connection table. */
  lemma DeadTablesLeakNothing(states: seq<State>, events: seq<Event>, i: nat, c: nat)
    requires Trace(states, events) && i < |states| && c < |states[i].flows|
    requires states[i].flows[c].table < |states[i].tables| && states[i].tables[states[i].flows[c].table].loop.Dead?
    ensures !states[i].flows[c].registered
  {
    TraceKeepsInv(states, events, i);
    var t := states[i].flows[c].table;
    assert TableOk(states[i].flows, t, states[i].tables[t]);
  }

  /** Every session names a flow of its own table and client, so no two clients or listeners share one. */
  lemma SessionsAreNotShared(states: seq<State>, events: seq<Event>, i: nat, t: nat, u: nat, a: int, b: int)
    requires Trace(states, events) && i < |states| && t < |states[i].tables| && u < |states[i].tables|
    requires a in states[i].tables[t].sessions && b in states[i].tables[u].sessions
    requires states[i].tables[t].sessions[a] == states[i].tables[u].sessions[b]
    ensures t == u && a == b
  {
    TraceKeepsInv(states, events, i);
    assert TableOk(states[i].flows, t, states[i].tables[t]) && TableOk(states[i].flows, u, states[i].tables[u]);
  }
}
