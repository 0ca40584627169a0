/** Traffic billing under concurrency (relay.go): every step below is one atomic operation of the program. */
module Billing {
  import opened Stores
  import opened Registry

  // ---------- state ----------

  datatype Dir = Up | Down

  /** One copy direction: reading; with `n` bytes read, about to look at the killed flag; past its last look, with `n`
      bytes to count; returned. */
  datatype Copier = Reading | Looking(n: nat) | Armed(n: nat) | Gone

  /** Accounting that the program does not have: what was ever added, settled and discarded, what was added after the
      kill and after the connection left the table, whether the last swap came after the direction had returned, and
      whether the connection's handler is over. */
  datatype Book = Book(addedUp: nat, addedDown: nat, settled: nat, discarded: nat, lateUp: nat, lateDown: nat, pastUp: nat,
                       pastDown: nat, upDry: bool, downDry: bool, ended: bool)

  /** An activeConn; `live` says whether it is in the connection table, and `upShut` and `downShut` whether the program
      has closed the socket that the direction reads from. */
  datatype Conn = Conn(udp: bool, rule: int, user: int, group: int, up: nat, down: nat, upLoop: Copier, downLoop: Copier,
                       upShut: bool, downShut: bool, killed: bool, live: bool, book: Book)

  /** A thread that settles, cuts off or resets. Connections are named by their index in creation order. */
  datatype Task =
    | Idle
    | Admitted(rule: int, user: int, group: int)
    | Settling(queue: seq<nat>, up: Option<nat>, down: Option<nat>, flush: Option<seq<nat>>)
    | Cutting(users: seq<int>, snapshot: seq<nat>, found: set<int>)
    | Killing(user: int, left: seq<nat>, users: seq<int>, snapshot: seq<nat>, found: set<int>)
    | Resetting(user: int, rest: set<nat>, half: Option<nat>)
    | ClearingTotals(user: int)

  /** Something with a total in the database. */
  datatype Key = ByRule(id: int) | ByUser(id: int) | ByGroup(id: int)

  /** `settled` and `cleared` are accounting too: bytes ever settled, and bytes each total lost to resets. */
  datatype State = State(db: DB, conns: seq<Conn>, tasks: seq<Task>, locked: bool, settled: nat, cleared: Key -> int)

  /** The longest read: the copy buffers of pump and of the UDP loops. */
  function MaxRead(c: Conn): nat { if c.udp then 65536 else 32 * 1024 }

  function Added(c: Conn): nat { c.book.addedUp + c.book.addedDown }

  function CounterOf(c: Conn, d: Dir): nat { if d.Up? then c.up else c.down }

  function LoopOf(c: Conn, d: Dir): Copier { if d.Up? then c.upLoop else c.downLoop }

  function Other(d: Dir): Dir { if d.Up? then Down else Up }

  predicate IsShut(c: Conn, d: Dir) { if d.Up? then c.upShut else c.downShut }

  /** A look that lets nothing through: the flag is set or, for a packet of a UDP client, the flow is no longer in the
      tables. */
  predicate TurnedAway(c: Conn, d: Dir) {
    c.killed || (c.udp && d.Up? && !c.live)
  }

  function Or0(o: Option<nat>): nat { if o.Some? then o.value else 0 }

  // ---------- steps ----------

  datatype Event =
    | Spawn
    | Serve(r: Request)
    | Admit(t: nat, rule: int, user: int)
    | Register(t: nat, udp: bool)
    | Fetch(c: nat, d: Dir, n: nat)
    | Arm(c: nat, d: Dir)
    | Add(c: nat, d: Dir)
    | Leave(c: nat, d: Dir)
    | Shut(c: nat, d: Dir)
    | Unregister(t: nat, c: nat)
    | Snapshot(t: nat, order: seq<nat>)
    | SwapUp(t: nat)
    | SwapDown(t: nat)
    | Account(t: nat, today: string)
    | QueueDone(t: nat, users: seq<int>)
    | Look(t: nat, over: bool)
    | Kill(t: nat)
    | CutDone(t: nat)
    | LockTable(t: nat, user: int)
    | ZeroUp(t: nat, c: nat)
    | ZeroDown(t: nat)
    | UnlockTable(t: nat)
    | ClearTotals(t: nat)

  predicate IsTask(s: State, t: nat) { t < |s.tasks| }

  ghost predicate Enabled(s: State, e: Event) {
    match e
    case Spawn => true
    // handleAdminUserReset is LockTable to ClearTotals; every other request is one step on the database
    case Serve(r) => !r.ResetUserTotals?
    // canUse: the rule object may already be deleted, its owner and group are looked up now
    case Admit(t, rule, user) =>
      && IsTask(s, t) && s.tasks[t].Idle? && 1 <= rule <= s.db.seqNo && UserByID(s.db.users, user).Some?
      && (forall i :: 0 <= i < |s.db.rules| && s.db.rules[i].id == rule ==> s.db.rules[i].user == user)
    case Register(t, _) => IsTask(s, t) && s.tasks[t].Admitted? && !s.locked
    case Fetch(c, d, n) =>
      c < |s.conns| && LoopOf(s.conns[c], d).Reading? && !IsShut(s.conns[c], d) && n <= MaxRead(s.conns[c])
    case Arm(c, d) => c < |s.conns| && LoopOf(s.conns[c], d).Looking? && !TurnedAway(s.conns[c], d)
    case Add(c, d) => c < |s.conns| && LoopOf(s.conns[c], d).Armed?
    case Leave(c, d) =>
      && c < |s.conns|
      && (LoopOf(s.conns[c], d).Reading? || (LoopOf(s.conns[c], d).Looking? && TurnedAway(s.conns[c], d)))
    // a TCP handler closes a socket when the direction that writes to it returns; a kill closes both
    case Shut(c, d) => c < |s.conns| && (s.conns[c].udp || s.conns[c].killed || LoopOf(s.conns[c], Other(d)).Gone?)
    // a TCP handler unregisters after both directions have returned; UDP paths may do so at any time, and again, but
    // each closes the flow's own socket first
    case Unregister(t, c) =>
      && IsTask(s, t) && s.tasks[t].Idle? && c < |s.conns| && !s.locked
      && (if s.conns[c].udp then s.conns[c].downShut else s.conns[c].upLoop.Gone? && s.conns[c].downLoop.Gone?)
    case Snapshot(t, order) =>
      && IsTask(s, t) && s.tasks[t].Idle? && !s.locked
      && (forall c: nat :: c in order <==> c < |s.conns| && s.conns[c].live)
      && (forall i, j :: 0 <= i < j < |order| ==> order[i] != order[j])
    case SwapUp(t) => IsTask(s, t) && s.tasks[t].Settling? && s.tasks[t].queue != [] && s.tasks[t].up.None?
    case SwapDown(t) => IsTask(s, t) && s.tasks[t].Settling? && s.tasks[t].up.Some? && s.tasks[t].down.None?
    case Account(t, _) => IsTask(s, t) && s.tasks[t].Settling? && s.tasks[t].down.Some?
    case QueueDone(t, users) =>
      && IsTask(s, t) && s.tasks[t].Settling? && s.tasks[t].queue == []
      && (forall id :: id in users <==> UserByID(s.db.users, id).Some?)
    case Look(t, over) =>
      && IsTask(s, t) && s.tasks[t].Cutting? && s.tasks[t].users != []
      && (UserByID(s.db.users, s.tasks[t].users[0]).Some? ==>
            over == OverQuota(s.db, UserByID(s.db.users, s.tasks[t].users[0]).value))
    case Kill(t) => IsTask(s, t) && s.tasks[t].Killing?
    case CutDone(t) => IsTask(s, t) && s.tasks[t].Cutting? && s.tasks[t].users == []
    case LockTable(t, user) => IsTask(s, t) && s.tasks[t].Idle? && !s.locked
    case ZeroUp(t, c) => IsTask(s, t) && s.tasks[t].Resetting? && s.tasks[t].half.None? && c in s.tasks[t].rest
    case ZeroDown(t) => IsTask(s, t) && s.tasks[t].Resetting? && s.tasks[t].half.Some?
    case UnlockTable(t) => IsTask(s, t) && s.tasks[t].Resetting? && s.tasks[t].half.None? && s.tasks[t].rest == {}
    case ClearTotals(t) => IsTask(s, t) && s.tasks[t].ClearingTotals?
  }

  function Counted(c: Conn, d: Dir): Conn {
    var m := if LoopOf(c, d).Armed? then LoopOf(c, d).n else 0;
    var late, past := if c.killed then m else 0, if c.live then 0 else m;
    var b := c.book;
    match d
    case Up =>
      c.(up := c.up + m, upLoop := Reading,
         book := b.(addedUp := b.addedUp + m, lateUp := b.lateUp + late, pastUp := b.pastUp + past))
    case Down =>
      c.(down := c.down + m, downLoop := Reading,
         book := b.(addedDown := b.addedDown + m, lateDown := b.lateDown + late, pastDown := b.pastDown + past))
  }

  function WithLoop(c: Conn, d: Dir, l: Copier): Conn {
    if d.Up? then c.(upLoop := l) else c.(downLoop := l)
  }

  function WithShut(c: Conn, d: Dir): Conn {
    if d.Up? then c.(upShut := true) else c.(downShut := true)
  }

  function TotalOf(db: DB, k: Key): Option<int> {
    match k
    case ByRule(id) => var i := RuleIdx(db.rules, id); if i < |db.rules| then Some(db.rules[i].total) else None
    case ByUser(id) => var i := UserIdx(db.users, id); if i < |db.users| then Some(db.users[i].total) else None
    case ByGroup(id) => var i := GroupIdx(db.groups, id); if i < |db.groups| then Some(db.groups[i].total) else None
  }

  /** Which totals a user reset clears, and which a group reset. */
  predicate UserResetHits(db: DB, user: int, k: Key) {
    match k
    case ByUser(id) => id == user
    case ByRule(id) => UserByID(db.users, user).Some? && RuleByID(db.rules, id).Some? && RuleByID(db.rules, id).value.user == user
    case ByGroup(_) => false
  }

  predicate GroupResetHits(db: DB, group: int, k: Key) {
    match k
    case ByGroup(id) => id == group
    case ByUser(id) => UserByID(db.users, id).Some? && UserByID(db.users, id).value.group == group
    case ByRule(id) => RuleByID(db.rules, id).Some? && OwnerIn(db.users, RuleByID(db.rules, id).value, group)
  }

  function Total0(db: DB, k: Key): int { if TotalOf(db, k).Some? then TotalOf(db, k).value else 0 }

  function LiveConns(conns: seq<Conn>, user: int): set<nat> {
    set c: nat | c < |conns| && conns[c].live && conns[c].user == user :: c
  }

  function ServeRequest(s: State, r: Request): State {
    var db := s.db;
    var cleared := s.cleared;
    var s' := s.(db := Handle(db, r).db);
    if r.ResetGroupTotals? && Handle(db, r).ok then
      s'.(cleared := k => cleared(k) + (if GroupResetHits(db, r.id, k) then Total0(db, k) else 0))
    else s'
  }

  function Next(s: State, e: Event): State
    requires Enabled(s, e)
    requires forall t :: 0 <= t < |s.tasks| ==> TaskOk(s.conns, s.tasks[t])
  {
    match e
    case Spawn => s.(tasks := s.tasks + [Idle])
    case Serve(r) => ServeRequest(s, r)
    case Admit(t, rule, user) =>
      s.(tasks := s.tasks[t := Admitted(rule, user, UserByID(s.db.users, user).value.group)])
    case Register(t, udp) =>
      var a := s.tasks[t];
      s.(conns := s.conns + [Conn(udp, a.rule, a.user, a.group, 0, 0, Reading, Reading, false, false, false, true,
                                  Book(0, 0, 0, 0, 0, 0, 0, 0, false, false, false))],
         tasks := s.tasks[t := Idle])
    case Fetch(c, d, n) => s.(conns := s.conns[c := WithLoop(s.conns[c], d, Looking(n))])
    case Arm(c, d) => s.(conns := s.conns[c := WithLoop(s.conns[c], d, Armed(LoopOf(s.conns[c], d).n))])
    case Add(c, d) => s.(conns := s.conns[c := Counted(s.conns[c], d)])
    case Leave(c, d) => s.(conns := s.conns[c := WithLoop(s.conns[c], d, Gone)])
    case Shut(c, d) => s.(conns := s.conns[c := WithShut(s.conns[c], d)])
    case Unregister(t, c) =>
      s.(conns := s.conns[c := s.conns[c].(live := false)], tasks := s.tasks[t := Settling([c], None, None, None)])
    case Snapshot(t, order) => s.(tasks := s.tasks[t := Settling(order, None, None, Some(order))])
    case SwapUp(t) =>
      var k := s.tasks[t];
      assert TaskOk(s.conns, k);
      var c := s.conns[k.queue[0]];
      s.(conns := s.conns[k.queue[0] := c.(up := 0, book := c.book.(upDry := c.upLoop.Gone?))],
         tasks := s.tasks[t := k.(up := Some(c.up))])
    case SwapDown(t) =>
      var k := s.tasks[t];
      assert TaskOk(s.conns, k);
      var c := s.conns[k.queue[0]];
      s.(conns := s.conns[k.queue[0] := c.(down := 0, book := c.book.(downDry := c.downLoop.Gone?))],
         tasks := s.tasks[t := k.(down := Some(c.down))])
    case Account(t, today) =>
      var k := s.tasks[t];
      assert TaskOk(s.conns, k);
      var c := s.conns[k.queue[0]];
      var n := Or0(k.up) + Or0(k.down);
      var b := c.book.(settled := c.book.settled + n, ended := c.book.ended || k.flush.None?);
      s.(db := Settle(s.db, c.rule, c.user, c.group, n, today), settled := s.settled + n,
         conns := s.conns[k.queue[0] := c.(book := b)], tasks := s.tasks[t := Settling(k.queue[1..], None, None, k.flush)])
    case QueueDone(t, users) =>
      var k := s.tasks[t];
      s.(tasks := s.tasks[t := if k.flush.Some? then Cutting(users, k.flush.value, {}) else Idle])
    case Look(t, over) =>
      var k := s.tasks[t];
      s.(tasks := s.tasks[t := if over then Killing(k.users[0], k.snapshot, k.users[1..], k.snapshot, k.found)
                               else Cutting(k.users[1..], k.snapshot, k.found)])
    case Kill(t) =>
      var k := s.tasks[t];
      if k.left == [] then s.(tasks := s.tasks[t := Cutting(k.users, k.snapshot, k.found + {k.user})])
      else
        assert TaskOk(s.conns, k);
        var c := s.conns[k.left[0]];
        s.(conns := if c.user == k.user then s.conns[k.left[0] := c.(killed := true)] else s.conns,
           tasks := s.tasks[t := k.(left := k.left[1..])])
    case CutDone(t) => s.(tasks := s.tasks[t := Idle])
    case LockTable(t, user) =>
      s.(locked := true,
         tasks := s.tasks[t := Resetting(user, LiveConns(s.conns, user), None)])
    case ZeroUp(t, x) =>
      var k := s.tasks[t];
      assert TaskOk(s.conns, k);
      var c := s.conns[x];
      s.(conns := s.conns[x := c.(up := 0, book := c.book.(discarded := c.book.discarded + c.up))],
         tasks := s.tasks[t := k.(rest := k.rest - {x}, half := Some(x))])
    case ZeroDown(t) =>
      var k := s.tasks[t];
      assert TaskOk(s.conns, k);
      var c := s.conns[k.half.value];
      s.(conns := s.conns[k.half.value := c.(down := 0, book := c.book.(discarded := c.book.discarded + c.down))],
         tasks := s.tasks[t := k.(half := None)])
    case UnlockTable(t) => s.(locked := false, tasks := s.tasks[t := ClearingTotals(s.tasks[t].user)])
    case ClearTotals(t) =>
      var db, user, cleared := s.db, s.tasks[t].user, s.cleared;
      s.(db := ResetUser(db, user),
         cleared := k => cleared(k) + (if UserResetHits(db, user, k) then Total0(db, k) else 0),
         tasks := s.tasks[t := Idle])
  }

  // ---------- what every thread may rely on ----------

  ghost predicate TaskOk(conns: seq<Conn>, k: Task) {
    match k
    case Settling(queue, up, down, flush) =>
      && (forall i :: 0 <= i < |queue| ==> queue[i] < |conns|)
      && (down.Some? ==> up.Some?) && (up.Some? ==> queue != [])
      && (flush.Some? ==> forall i :: 0 <= i < |flush.value| ==> flush.value[i] < |conns|)
      && (flush.None? ==> forall i :: 0 <= i < |queue| ==> Unregistering(conns[queue[i]], i == 0 && up.Some?, i == 0 && down.Some?))
    case Cutting(_, snapshot, found) => SnapshotOk(conns, snapshot, found)
    case Killing(user, left, _, snapshot, found) =>
      && SnapshotOk(conns, snapshot, found)
      && (forall i :: 0 <= i < |left| ==> left[i] < |conns|)
      && (forall i :: 0 <= i < |snapshot| && conns[snapshot[i]].user == user ==> conns[snapshot[i]].killed || snapshot[i] in left)
    case Resetting(user, rest, half) =>
      && (forall c :: c in rest ==> c < |conns| && conns[c].user == user)
      && (half.Some? ==> half.value < |conns| && conns[half.value].user == user)
    case _ => true
  }

  /** It has left the table. A TCP connection is unregistered only after both directions have returned, so what a swap
      empties stays empty. */
  ghost predicate Unregistering(c: Conn, upDone: bool, downDone: bool) {
    && !c.live
    && (c.udp || (c.upLoop.Gone? && c.downLoop.Gone? && (upDone ==> c.book.upDry) && (downDone ==> c.book.downDry)))
  }

  /** Every snapshot connection of a user already found over quota is killed. */
  ghost predicate SnapshotOk(conns: seq<Conn>, snapshot: seq<nat>, found: set<int>) {
    forall i :: 0 <= i < |snapshot| ==> snapshot[i] < |conns| && (conns[snapshot[i]].user in found ==> conns[snapshot[i]].killed)
  }
}
