/** Listeners and bandwidth buckets: Reload and bucket of relay.go, and when the handlers of api.go reload. */
module Listeners {
  import opened Stores
  import opened Registry
  import opened Soundness
  import opened Answers
  import opened Samples
  import opened RuleLife
  import opened Listing
  import opened Realm
  import opened TokenBuckets

  /** Open listeners by number; each is held with the id of the rule its accept loop was started with. */
  datatype Net = Net(tcp: map<int, int>, udp: map<int, int>)

  /** The active rules by number. */
  function Desired(rules: seq<Rule>): map<int, Rule> {
    if rules == [] then map[]
    else
      var p := rules[|rules| - 1];
      var m := Desired(rules[..|rules| - 1]);
      if Active(p) then m[p.port := p] else m
  }

  // `tcpFails` and `udpFails` are the numbers whose bind the operating system refuses.

  predicate TcpOpens(net: Net, p: Rule, n: int, tcpFails: set<int>) {
    n !in net.tcp && p.tcp && n !in tcpFails
  }

  /** A refused TCP bind also skips the UDP one. */
  predicate UdpOpens(net: Net, p: Rule, n: int, tcpFails: set<int>, udpFails: set<int>) {
    n !in net.udp && p.udp && n !in udpFails && !(n !in net.tcp && p.tcp && n in tcpFails)
  }

  /** The TCP listeners once the creation loop has passed every number of `d` that is not in `todo`. */
  function TcpAfter(net: Net, d: map<int, Rule>, todo: set<int>, tcpFails: set<int>): map<int, int> {
    map n | n in d && (n in net.tcp || (n !in todo && TcpOpens(net, d[n], n, tcpFails)))
      :: if n in net.tcp then net.tcp[n] else d[n].id
  }

  function UdpAfter(net: Net, d: map<int, Rule>, todo: set<int>, tcpFails: set<int>, udpFails: set<int>): map<int, int> {
    map n | n in d && (n in net.udp || (n !in todo && UdpOpens(net, d[n], n, tcpFails, udpFails)))
      :: if n in net.udp then net.udp[n] else d[n].id
  }

  function Reloaded(net: Net, rules: seq<Rule>, tcpFails: set<int>, udpFails: set<int>): Net {
    var d := Desired(Sorted(rules));
    Net(TcpAfter(net, d, {}, tcpFails), UdpAfter(net, d, {}, tcpFails, udpFails))
  }

  // ---------- the code ----------

  /** A map is ranged over in any order. */
  method AnyOf<T(==)>(s: set<T>) returns (x: T)
    requires s != {}
    ensures x in s
  {
    x :| x in s;
  }

  class Relay {
    const store: Store
    var tcp: map<int, int>
    var udp: map<int, int>
    var buckets: map<int, TokenBucket?>

    function View(): Net
      reads this
    {
      Net(tcp, udp)
    }

    /** No two users share a bucket. */
    ghost predicate Separate()
      reads this
    {
      forall u, v :: u in buckets && v in buckets && u != v && buckets[u] != null ==> buckets[u] != buckets[v]
    }

    constructor (store: Store)
      ensures this.store == store && View() == Net(map[], map[]) && buckets == map[] && Separate()
    {
      this.store := store;
      tcp, udp, buckets := map[], map[], map[];
    }

    method Reload(tcpFails: set<int>, udpFails: set<int>)
      modifies this
      ensures View() == Reloaded(old(View()), store.rules, tcpFails, udpFails)
      ensures buckets == map[] && Separate()
    {
      buckets := map[];
      var desired := Wanted();
      hide Desired;
      hide Sorted;
      CloseUnwanted(desired.Keys);
      OpenWanted(desired, tcpFails, udpFails, old(View()));
    }

    /** The loop that collects the active rules by number. */
    method Wanted() returns (desired: map<int, Rule>)
      ensures desired == Desired(Sorted(store.rules))
    {
      var ports := Sorted(store.rules);
      desired := map[];
      var i := 0;
      while i < |ports|
        invariant 0 <= i <= |ports| && desired == Desired(ports[..i])
      {
        var p := ports[i];
        if p.enabled && (p.tcp || p.udp) {
          desired := desired[p.port := p];
        }
        assert ports[..i + 1][..i] == ports[..i];
        i := i + 1;
      }
      assert ports[..i] == ports;
    }

    /** The two deletion loops. */
    method CloseUnwanted(desired: set<int>)
      modifies this`tcp, this`udp
      ensures tcp == map n | n in old(tcp) && n in desired :: old(tcp)[n]
      ensures udp == map n | n in old(udp) && n in desired :: old(udp)[n]
    {
      var keys: set<int> := tcp.Keys;
      while keys != {}
        invariant keys <= old(tcp).Keys && udp == old(udp)
        invariant tcp == map n | n in old(tcp) && (n in keys || n in desired) :: old(tcp)[n]
        decreases keys
      {
        var n := AnyOf(keys);
        if n !in desired {
          tcp := tcp - {n};
        }
        keys := keys - {n};
      }
      keys := udp.Keys;
      while keys != {}
        invariant keys <= old(udp).Keys && tcp == map n | n in old(tcp) && n in desired :: old(tcp)[n]
        invariant udp == map n | n in old(udp) && (n in keys || n in desired) :: old(udp)[n]
        decreases keys
      {
        var n := AnyOf(keys);
        if n !in desired {
          udp := udp - {n};
        }
        keys := keys - {n};
      }
    }

    /** The creation loop; `net` are the listeners before anything was closed. */
    method OpenWanted(desired: map<int, Rule>, tcpFails: set<int>, udpFails: set<int>, ghost net: Net)
      requires tcp == TcpAfter(net, desired, desired.Keys, tcpFails)
      requires udp == UdpAfter(net, desired, desired.Keys, tcpFails, udpFails)
      modifies this`tcp, this`udp
      ensures tcp == TcpAfter(net, desired, {}, tcpFails)
      ensures udp == UdpAfter(net, desired, {}, tcpFails, udpFails)
    {
      var todo: set<int> := desired.Keys;
      while todo != {}
        invariant todo <= desired.Keys
        invariant tcp == TcpAfter(net, desired, todo, tcpFails)
        invariant udp == UdpAfter(net, desired, todo, tcpFails, udpFails)
        decreases todo
      {
        var n := AnyOf(todo);
        OneMoreTcp(net, desired, todo, n, tcpFails);
        OneMoreUdp(net, desired, todo, n, tcpFails, udpFails);
        hide TcpAfter;
        hide UdpAfter;
        var p := desired[n];
        todo := todo - {n};
        if n !in tcp && p.tcp {
          if n in tcpFails {
            continue;
          }
          tcp := tcp[n := p.id];
        }
        if n !in udp && p.udp {
          if n in udpFails {
            continue;
          }
          udp := udp[n := p.id];
        }
      }
    }

    /** Buckets are filed by user, whatever the user's group; bandwidth 0 or less means none. */
    method Bucket(user: int, mbps: int, now: int) returns (b: TokenBucket?)
      requires Separate()
      modifies this`buckets
      ensures Separate()
      ensures user in old(buckets) ==> b == old(buckets)[user] && buckets == old(buckets)
      ensures user !in old(buckets) ==> buckets == old(buckets)[user := b] && (b == null <==> mbps <= 0)
      ensures user !in old(buckets) && b != null ==> fresh(b) && b.View() == NewBucket(mbps, now) && Sane(b.View())
    {
      if user in buckets {
        return buckets[user];
      }
      b := null;
      if mbps > 0 {
        b := new TokenBucket(mbps as real * 1_000_000.0 / 8.0, now);
      }
      buckets := buckets[user := b];
    }
  }

  /** A full bucket for `mbps` megabits a second: one second's worth now, at most one and a half. */
  function NewBucket(mbps: int, now: int): TokenBuckets.Bucket {
    var rate := mbps as real * 1_000_000.0 / 8.0;
    TokenBuckets.Bucket(rate, rate * 1.5, rate, now)
  }

  lemma SecondsOf(mbps: int, seconds: nat)
    ensures 8.0 * Earned(mbps as real * 1_000_000.0 / 8.0, seconds * 1_000_000_000) == (mbps * seconds) as real * 1_000_000.0
  {
    assert (seconds * 1_000_000_000) as real == seconds as real * 1_000_000_000.0;
    assert (mbps * seconds) as real == mbps as real * seconds as real;
  }

  /** A group's bandwidth is megabits a second: through a new bucket, `k` callers get at most `mbps` megabits and (k+1)
      times as many for each second, up to one nanosecond's worth per call; and `mbps` megabits pass at once. */
  lemma BandwidthIsMegabits(mbps: int, calls: seq<TokenBuckets.Call>, k: nat, now: int, seconds: nat)
    requires mbps > 0 && TokenBuckets.Run(NewBucket(mbps, now), calls) && Callers(calls, k)
    ensures 8.0 * Bytes(calls, now, now + seconds * 1_000_000_000) as real
            <= (mbps * (1 + (k + 1) * seconds)) as real * 1_000_000.0
               + 8.0 * Earned(NewBucket(mbps, now).rate, Count(calls, now, now + seconds * 1_000_000_000))
    ensures SleepOf(NewBucket(mbps, now), mbps * 125_000, now) == 0
  {
    var b := NewBucket(mbps, now);
    BytesSinceCreation(b, calls, k, now, now + seconds * 1_000_000_000);
    SecondsOf(mbps, (k + 1) * seconds);
    assert (k + 1) * (seconds * 1_000_000_000) == ((k + 1) * seconds) * 1_000_000_000;
    assert mbps * (1 + (k + 1) * seconds) == mbps + mbps * ((k + 1) * seconds);
    EarnedZero(b.rate);
    hide Earned, Bytes, Count, TokenBuckets.Run, Callers;
  }

  lemma OneMoreTcp(net: Net, d: map<int, Rule>, todo: set<int>, n: int, tcpFails: set<int>)
    requires n in todo && todo <= d.Keys
    ensures var m := TcpAfter(net, d, todo, tcpFails);
            && (n in m <==> n in net.tcp)
            && TcpAfter(net, d, todo - {n}, tcpFails) == if TcpOpens(net, d[n], n, tcpFails) then m[n := d[n].id] else m
  {
  }

  lemma OneMoreUdp(net: Net, d: map<int, Rule>, todo: set<int>, n: int, tcpFails: set<int>, udpFails: set<int>)
    requires n in todo && todo <= d.Keys
    ensures var m := UdpAfter(net, d, todo, tcpFails, udpFails);
            && (n in m <==> n in net.udp)
            && UdpAfter(net, d, todo - {n}, tcpFails, udpFails)
               == if UdpOpens(net, d[n], n, tcpFails, udpFails) then m[n := d[n].id] else m
  {
  }

  // ---------- one reload ----------

  lemma {:induction false} DesiredMeaning(rules: seq<Rule>, n: int)
    ensures n in Desired(rules) <==> exists p :: p in rules && Active(p) && p.port == n
    ensures n in Desired(rules) ==> Desired(rules)[n] in rules && Active(Desired(rules)[n]) && Desired(rules)[n].port == n
  {
    if rules != [] {
      var pre, p := rules[..|rules| - 1], rules[|rules| - 1];
      DesiredMeaning(pre, n);
      assert rules == pre + [p];
      if n in Desired(pre) && !(Active(p) && p.port == n) {
        assert Desired(rules)[n] == Desired(pre)[n];
      }
    }
  }

  lemma SortedDesired(rules: seq<Rule>, n: int)
    ensures var d := Desired(Sorted(rules));
            && (n in d <==> exists p :: p in rules && Active(p) && p.port == n)
            && (n in d ==> d[n] in rules && Active(d[n]) && d[n].port == n)
  {
    DesiredMeaning(Sorted(rules), n);
    SortedIsSame(rules);
  }

  lemma DesiredIs(rules: seq<Rule>, p: Rule)
    requires RulePorts(rules) && p in rules && Active(p)
    ensures p.port in Desired(Sorted(rules)) && Desired(Sorted(rules))[p.port] == p
  {
    SortedDesired(rules, p.port);
    var q := Desired(Sorted(rules))[p.port];
    var i :| 0 <= i < |rules| && rules[i] == p;
    var j :| 0 <= j < |rules| && rules[j] == q;
  }

  /** After a reload every open number belongs to an active rule, and a listener that was open is still the same one. */
  lemma OnlyActiveNumbersStay(net: Net, rules: seq<Rule>, tcpFails: set<int>, udpFails: set<int>, n: int)
    ensures var net' := Reloaded(net, rules, tcpFails, udpFails);
            && (n in net'.tcp || n in net'.udp ==> exists p :: p in rules && Active(p) && p.port == n)
            && (n in net.tcp && n in net'.tcp ==> net'.tcp[n] == net.tcp[n])
            && (n in net.udp && n in net'.udp ==> net'.udp[n] == net.udp[n])
  {
    SortedDesired(rules, n);
  }

  /** Which active rules have listeners after a reload. A protocol that was switched off keeps an open listener. */
  lemma ActiveRulesAreHeard(net: Net, rules: seq<Rule>, tcpFails: set<int>, udpFails: set<int>, p: Rule)
    requires RulePorts(rules) && p in rules && Active(p)
    ensures var net' := Reloaded(net, rules, tcpFails, udpFails);
            var tcpRefused := p.tcp && p.port !in net.tcp && p.port in tcpFails;
            && (p.port in net'.tcp <==> p.port in net.tcp || (p.tcp && !tcpRefused))
            && (p.port in net'.udp <==> p.port in net.udp || (p.udp && !tcpRefused && p.port !in udpFails))
  {
    DesiredIs(rules, p);
  }

  /** Reloading again closes nothing; if the same binds are refused, it changes nothing at all. */
  lemma SecondReload(net: Net, rules: seq<Rule>, tcpFails: set<int>, udpFails: set<int>, tcpFails': set<int>, udpFails': set<int>)
    ensures var once := Reloaded(net, rules, tcpFails, udpFails);
            var twice := Reloaded(once, rules, tcpFails', udpFails');
            && (forall n :: n in once.tcp ==> n in twice.tcp && twice.tcp[n] == once.tcp[n])
            && (forall n :: n in once.udp ==> n in twice.udp && twice.udp[n] == once.udp[n])
            && (tcpFails' == tcpFails && udpFails' == udpFails ==> twice == once)
  {
    hide Desired;
    hide Sorted;
    var d, once := Desired(Sorted(rules)), Reloaded(net, rules, tcpFails, udpFails);
    var tcp', udp' := TcpAfter(once, d, {}, tcpFails'), UdpAfter(once, d, {}, tcpFails', udpFails');
    if tcpFails' == tcpFails && udpFails' == udpFails {
      forall n | n in d ensures !TcpOpens(once, d[n], n, tcpFails) && !UdpOpens(once, d[n], n, tcpFails, udpFails) {
      }
      assert tcp' == once.tcp;
      assert udp' == once.udp;
    }
  }

  // ---------- whole runs: whose connections does a listener take? ----------

  datatype Panel = Panel(db: DB, net: Net)

  /** The requests that end in a reload, once accepted. */
  predicate Reloads(r: Request) {
    Applies(r) || r.ResetUserTotals? || r.EditGroup? || r.ResetGroupTotals?
  }

  /** A request and what follows it. */
  function Serve(s: Panel, r: Request, tcpFails: set<int>, udpFails: set<int>): Panel {
    var reply := Handle(s.db, r);
    Panel(reply.db, if Reloads(r) && reply.ok then Reloaded(s.net, reply.db.rules, tcpFails, udpFails) else s.net)
  }

  /** Rule `id` is active and has number `n`. */
  ghost predicate Holds(rules: seq<Rule>, id: int, n: int) {
    exists i :: 0 <= i < |rules| && rules[i].id == id && rules[i].port == n && Active(rules[i])
  }

  /** Every listener was started for the rule that has its number now. */
  ghost predicate Captured(rules: seq<Rule>, net: Net) {
    && (forall n :: n in net.tcp ==> Holds(rules, net.tcp[n], n))
    && (forall n :: n in net.udp ==> Holds(rules, net.udp[n], n))
  }

  lemma HolderAfter(db: DB, db': DB, n: int, id: int)
    requires Holds(db.rules, id, n) && NoHandover(db, db') && n in Desired(Sorted(db'.rules))
    ensures Holds(db'.rules, id, n)
  {
    var i :| 0 <= i < |db.rules| && db.rules[i].id == id && db.rules[i].port == n;
    SortedDesired(db'.rules, n);
    var p := Desired(Sorted(db'.rules))[n];
    assert db.rules[i] in db.rules && p.id == id;
    var j :| 0 <= j < |db'.rules| && db'.rules[j] == p;
  }

  lemma NewListener(rules: seq<Rule>, n: int)
    requires n in Desired(Sorted(rules))
    ensures Holds(rules, Desired(Sorted(rules))[n].id, n)
  {
    SortedDesired(rules, n);
    var j :| 0 <= j < |rules| && rules[j] == Desired(Sorted(rules))[n];
  }

  lemma ReloadKeepsCaptured(db: DB, db': DB, net: Net, tcpFails: set<int>, udpFails: set<int>)
    requires Captured(db.rules, net) && NoHandover(db, db')
    ensures Captured(db'.rules, Reloaded(net, db'.rules, tcpFails, udpFails))
  {
    hide Desired;
    hide Sorted;
    hide Holds;
    hide NoHandover;
    var net' := Reloaded(net, db'.rules, tcpFails, udpFails);
    forall n | n in net'.tcp ensures Holds(db'.rules, net'.tcp[n], n) {
      if n in net.tcp { HolderAfter(db, db', n, net.tcp[n]); } else { NewListener(db'.rules, n); }
    }
    forall n | n in net'.udp ensures Holds(db'.rules, net'.udp[n], n) {
      if n in net.udp { HolderAfter(db, db', n, net.udp[n]); } else { NewListener(db'.rules, n); }
    }
  }

  /** Does this request move a rule off a number with an open listener, only to be refused by a later check? */
  predicate Strands(s: Panel, r: Request) {
    && r.EditRule?
    && var i := RuleIdx(s.db.rules, r.id);
       && i < |s.db.rules|
       && WritesNumber(s.db, s.db.rules[i], r.rule)
       && !RuleEditOk(s.db, s.db.rules[i], r.owner, r.rule)
       && (s.db.rules[i].port in s.net.tcp || s.db.rules[i].port in s.net.udp)
  }

  lemma RefusedEditKeepsFlags(db: DB, p: Rule, owner: int, q: RuleReq)
    requires !RuleEditOk(db, p, owner, q)
    ensures var (v, ok) := EditedRule(db, p, owner, q);
            !ok && v.id == p.id && Active(v) == Active(p) && v.port == if WritesNumber(db, p, q) then q.port else p.port
  {
    WrittenPlace(db, p, owner, q);
    EditRuleAccepted(db, p, owner, q);
    EditRuleRefused(db, p, owner, q);
  }

  lemma RefusedEdit(s: Panel, r: Request)
    requires Sound(s.db) && Captured(s.db.rules, s.net) && r.EditRule? && !Handle(s.db, r).ok
    ensures Captured(Handle(s.db, r).db.rules, s.net) <==> !Strands(s, r)
  {
    hide RuleIdx, RuleEditOk, WritesNumber, Captured, EditedRule, Sound;
    var i := RuleIdx(s.db.rules, r.id);
    if i < |s.db.rules| {
      EditRuleAccepted(s.db, s.db.rules[i], r.owner, r.rule);
      RefusedWrite(s.db, i, r.owner, r.rule, s.net);
    }
  }

  lemma RefusedWrite(db: DB, i: nat, owner: int, q: RuleReq, net: Net)
    requires Sound(db) && Captured(db.rules, net) && i < |db.rules| && !RuleEditOk(db, db.rules[i], owner, q)
    ensures Captured(db.rules[i := EditedRule(db, db.rules[i], owner, q).0], net)
       <==> !(WritesNumber(db, db.rules[i], q) && (db.rules[i].port in net.tcp || db.rules[i].port in net.udp))
  {
    var p := db.rules[i];
    RefusedEditKeepsFlags(db, p, owner, q);
    assert RulePorts(db.rules) && (WritesNumber(db, p, q) ==> q.port != p.port);
    hide EditedRule, WritesNumber, RuleEditOk, Captured, Sound, RulePorts, Active;
    if WritesNumber(db, p, q) {
      NumberLeft(db.rules, i, EditedRule(db, p, owner, q).0, net);
    } else {
      SameNumbers(db.rules, i, EditedRule(db, p, owner, q).0, net);
    }
  }

  lemma SameNumbers(rules: seq<Rule>, i: nat, v: Rule, net: Net)
    requires i < |rules| && v.id == rules[i].id && v.port == rules[i].port && Active(v) == Active(rules[i])
    requires Captured(rules, net)
    ensures Captured(rules[i := v], net)
  {
    forall id, n | Holds(rules, id, n) ensures Holds(rules[i := v], id, n) {
      var j :| 0 <= j < |rules| && rules[j].id == id && rules[j].port == n && Active(rules[j]);
      assert rules[i := v][j].id == id;
    }
  }

  lemma NumberLeft(rules: seq<Rule>, i: nat, v: Rule, net: Net)
    requires i < |rules| && RulePorts(rules) && v.port != rules[i].port && Captured(rules, net)
    ensures Captured(rules[i := v], net) <==> rules[i].port !in net.tcp && rules[i].port !in net.udp
  {
    var rules', old_ := rules[i := v], rules[i].port;
    forall id ensures !Holds(rules', id, old_) {
    }
    forall id, n | Holds(rules, id, n) && n != old_ ensures Holds(rules', id, n) {
      var j :| 0 <= j < |rules| && rules[j].id == id && rules[j].port == n && Active(rules[j]);
      assert rules'[j].id == id;
    }
  }

  lemma {:induction false} NoReloadSameRules(db: DB, r: Request)
    requires !r.EditRule? && !(Reloads(r) && Handle(db, r).ok)
    ensures Handle(db, r).db.rules == db.rules
  {
  }

  lemma AcceptedStrandsNothing(s: Panel, r: Request)
    requires Handle(s.db, r).ok
    ensures !Strands(s, r)
  {
    if r.EditRule? {
      var i := RuleIdx(s.db.rules, r.id);
      if i < |s.db.rules| { EditRuleAccepted(s.db, s.db.rules[i], r.owner, r.rule); }
      hide RuleEditOk, WritesNumber, RuleIdx, EditedRule;
    }
  }

  /** A request keeps every listener with the rule that has its number, except exactly when it strands one. */
  lemma StepKeepsCaptured(s: Panel, r: Request, tcpFails: set<int>, udpFails: set<int>)
    requires Started(s.db) && Captured(s.db.rules, s.net)
    ensures Captured(Serve(s, r, tcpFails, udpFails).db.rules, Serve(s, r, tcpFails, udpFails).net) <==> !Strands(s, r)
  {
    var reply := Handle(s.db, r);
    if reply.ok { AcceptedStrandsNothing(s, r); }
    assert !r.EditRule? ==> !Strands(s, r);
    assert Sound(s.db);
    hide Strands, Captured, Handle, Started, Sound, NoHandover, Reloaded;
    if Reloads(r) && reply.ok {
      RequestHandsNothingOver(s.db, r);
      ReloadKeepsCaptured(s.db, reply.db, s.net, tcpFails, udpFails);
    } else if r.EditRule? {
      RefusedEdit(s, r);
    } else {
      NoReloadSameRules(s.db, r);
    }
  }

  /** A reload on its own: the program starts, or an administrator asks for one. */
  function Refresh(s: Panel, tcpFails: set<int>, udpFails: set<int>): Panel {
    s.(net := Reloaded(s.net, s.db.rules, tcpFails, udpFails))
  }

  /** Open listeners on numbers of active rules belong to these rules. */
  ghost predicate NoImpostor(rules: seq<Rule>, net: Net) {
    && (forall n :: n in net.tcp && n in Desired(Sorted(rules)) ==> Holds(rules, net.tcp[n], n))
    && (forall n :: n in net.udp && n in Desired(Sorted(rules)) ==> Holds(rules, net.udp[n], n))
  }

  /** A reload leaves every listener with the rule that has its number, if and only if no active rule's number is held
      open for another one: it closes all others, but never opens a number again that is open. */
  lemma RefreshCaptures(s: Panel, tcpFails: set<int>, udpFails: set<int>)
    ensures var after := Refresh(s, tcpFails, udpFails);
            Captured(after.db.rules, after.net) <==> NoImpostor(s.db.rules, s.net)
  {
    hide Desired, Sorted, Holds;
    var d, net' := Desired(Sorted(s.db.rules)), Refresh(s, tcpFails, udpFails).net;
    forall n | n in d ensures Holds(s.db.rules, d[n].id, n) {
      NewListener(s.db.rules, n);
    }
    forall n | n in d && n in s.net.tcp ensures n in net'.tcp && net'.tcp[n] == s.net.tcp[n] {
    }
    forall n | n in d && n in s.net.udp ensures n in net'.udp && net'.udp[n] == s.net.udp[n] {
    }
  }

  datatype Event =
    | Ask(r: Request, tcpFails: set<int>, udpFails: set<int>)
    | Again(tcpFails: set<int>, udpFails: set<int>)

  function After(s: Panel, e: Event): Panel {
    match e
    case Ask(r, tcpFails, udpFails) => Serve(s, r, tcpFails, udpFails)
    case Again(tcpFails, udpFails) => Refresh(s, tcpFails, udpFails)
  }

  function Run(s: Panel, es: seq<Event>): Panel {
    if es == [] then s else After(Run(s, es[..|es| - 1]), es[|es| - 1])
  }

  lemma CapturedHasNoImpostor(rules: seq<Rule>, net: Net)
    requires Captured(rules, net)
    ensures NoImpostor(rules, net)
  {
    hide Holds, Desired;
  }

  lemma EventKeepsCaptured(s: Panel, e: Event)
    requires Started(s.db) && Captured(s.db.rules, s.net)
    ensures Started(After(s, e).db)
    ensures Captured(After(s, e).db.rules, After(s, e).net) <==> !(e.Ask? && Strands(s, e.r))
  {
    hide Strands, Captured, Started, NoImpostor, Handle, Reloaded;
    match e
    case Ask(r, tcpFails, udpFails) =>
      StepKeepsCaptured(s, r, tcpFails, udpFails);
      RequestIsSound(s.db, r);
    case Again(tcpFails, udpFails) =>
      CapturedHasNoImpostor(s.db.rules, s.net);
      RefreshCaptures(s, tcpFails, udpFails);
  }

  /** Over any run of requests and reloads in which no refused edit strands a listener, every listener serves the rule
      that has its number. */
  lemma {:induction false} ListenersServeTheirRules(s: Panel, es: seq<Event>)
    requires Started(s.db) && Captured(s.db.rules, s.net)
    requires forall n :: 0 <= n < |es| && es[n].Ask? ==> !Strands(Run(s, es[..n]), es[n].r)
    ensures Started(Run(s, es).db) && Captured(Run(s, es).db.rules, Run(s, es).net)
  {
    hide Strands, Captured, Started, After;
    if es != [] {
      var pre, e := es[..|es| - 1], es[|es| - 1];
      forall n | 0 <= n < |pre| && pre[n].Ask? ensures !Strands(Run(s, pre[..n]), pre[n].r) {
        assert pre[..n] == es[..n] && es[n] == pre[n];
      }
      ListenersServeTheirRules(s, pre);
      assert e.Ask? ==> !Strands(Run(s, es[..|pre|]), es[|pre|].r);
      EventKeepsCaptured(Run(s, pre), e);
    }
  }

  /** Stranding does happen: a new number together with neither protocol. */
  lemma AStrandedListener() returns (s: Panel, r: Request)
    ensures Started(s.db) && Captured(s.db.rules, s.net) && Strands(s, r)
  {
    s := Panel(Sample(0, 0, 0), Net(map[1000 := 4], map[]));
    r := EditRule(4, 0, NumberEdit(1001).(tcp := false, udp := false));
    SampleIsStarted(0, 0, 0);
    SampleLookups(0, 0, 0);
    assert Holds(s.db.rules, 4, 1000) by { assert s.db.rules[0] == AliceRule(0); }
  }

  /** Does the request put another rule than `id` on number `n`, active? */
  ghost predicate PutsRuleOn(x: Request, id: int, n: int) {
    match x
    case CreateRule(_, q) => q.port == n && q.enabled
    case AddOwnRule(_, q) => q.port == n
    case AddOwnRules(_, qs) => exists k :: 0 <= k < |qs| && qs[k].port == n && qs[k].enabled
    case EditRule(other, _, q) => other != id && q.port == n && q.enabled
    case _ => false
  }

  lemma StrandsWithoutReload(s: Panel, r: Request)
    requires Strands(s, r)
    ensures !Handle(s.db, r).ok
  {
    if Handle(s.db, r).ok { AcceptedStrandsNothing(s, r); }
    hide Handle, Strands;
  }

  /** What stranding leads to: a rule put next on the abandoned number, by whatever request, is not heard where the old
      rule was, over TCP, UDP or both, because the old rule's listener is still there and stays. */
  lemma StrandedNumberServesTheOldRule(s: Panel, r: Request, x: Request, tcpFails: set<int>, udpFails: set<int>,
                                       tcpFails': set<int>, udpFails': set<int>) returns (p: Rule)
    requires Started(s.db) && Captured(s.db.rules, s.net) && Strands(s, r)
    requires PutsRuleOn(x, r.id, s.db.rules[RuleIdx(s.db.rules, r.id)].port)
    requires Handle(Serve(s, r, tcpFails, udpFails).db, x).ok
    ensures var n := s.db.rules[RuleIdx(s.db.rules, r.id)].port;
            var after := Serve(Serve(s, r, tcpFails, udpFails), x, tcpFails', udpFails');
            && p in after.db.rules && p.port == n && Active(p) && p.id != r.id
            && (n in s.net.tcp || n in s.net.udp)
            && (n in s.net.tcp ==> n in after.net.tcp && after.net.tcp[n] == r.id)
            && (n in s.net.udp ==> n in after.net.udp && after.net.udp[n] == r.id)
  {
    hide Captured, Reloaded, Handle, RuleIdx, RuleEditOk, WritesNumber, ValidPortNum;
    var mid := Serve(s, r, tcpFails, udpFails);
    var n := s.db.rules[RuleIdx(s.db.rules, r.id)].port;
    OldHolder(s, r);
    StrandsWithoutReload(s, r);
    hide Strands;
    p := RulePut(mid.db, x, r.id, n);
    OpenNumberStays(mid.net, Handle(mid.db, x).db.rules, p, tcpFails', udpFails');
  }

  lemma {:induction false} AppendedRule(db: DB, me: int, qs: seq<RuleReq>, k: nat)
    requires k < |qs|
    ensures var rules := AppendRules(db, me, qs).rules;
            && |rules| == |db.rules| + |qs|
            && var p := rules[|db.rules| + k];
               p.port == qs[k].port && p.enabled == qs[k].enabled && p.tcp == qs[k].tcp && p.udp == qs[k].udp
               && p.id == db.seqNo + k + 1
    ensures AppendRules(db, me, qs).seqNo == db.seqNo + |qs|
  {
    var m := |qs| - 1;
    AppendedPorts(db, me, qs[..m]);
    if k < m { AppendedRule(db, me, qs[..m], k); } else { CounterAfter(db, me, qs[..m]); CounterAfter(db, me, qs); }
  }

  lemma {:induction false} CounterAfter(db: DB, me: int, qs: seq<RuleReq>)
    ensures AppendRules(db, me, qs).seqNo == db.seqNo + |qs|
  {
    if qs != [] { CounterAfter(db, me, qs[..|qs| - 1]); }
  }

  lemma BatchPut(db: DB, me: int, qs: seq<RuleReq>, k: nat)
    requires OnAddOwnRules(db, me, qs).ok && k < |qs| && qs[k].enabled
    ensures var rules := OnAddOwnRules(db, me, qs).db.rules;
            && |rules| == |db.rules| + |qs|
            && var p := rules[|db.rules| + k]; p.port == qs[k].port && Active(p) && p.id > db.seqNo
  {
    AppendedRule(db, me, qs, k);
    hide AppendRules, UserIdx;
  }

  lemma OnePut(db: DB, owner: int, q: RuleReq)
    ensures OnCreateRule(db, owner, q).ok && q.enabled ==>
              var rules := OnCreateRule(db, owner, q).db.rules;
              |rules| == |db.rules| + 1 && var p := rules[|db.rules|]; p.port == q.port && Active(p) && p.id > db.seqNo
    ensures OnAddOwnRule(db, owner, q).ok ==>
              var rules := OnAddOwnRule(db, owner, q).db.rules;
              |rules| == |db.rules| + 1 && var p := rules[|db.rules|]; p.port == q.port && Active(p) && p.id > db.seqNo
  {
    hide ValidPortNum, InRange, UserByID;
  }

  lemma EditPut(db: DB, id: int, owner: int, q: RuleReq)
    requires OnEditRule(db, id, owner, q).ok && q.port > 0 && q.enabled
    ensures var rules, i := OnEditRule(db, id, owner, q).db.rules, RuleIdx(db.rules, id);
            i < |rules| && rules[i].port == q.port && Active(rules[i]) && rules[i].id == id
  {
    var i := RuleIdx(db.rules, id);
    EditRuleAccepted(db, db.rules[i], owner, q);
    hide EditedRule, RuleIdx;
  }

  /** The rule that was put on the number. */
  lemma RulePut(db: DB, x: Request, id: int, n: int) returns (p: Rule)
    requires PutsRuleOn(x, id, n) && n > 0 && id <= db.seqNo && Handle(db, x).ok
    ensures p in Handle(db, x).db.rules && p.port == n && Active(p) && p.id != id && Reloads(x)
  {
    hide OnCreateRule, OnAddOwnRule, OnAddOwnRules, OnEditRule;
    match x
    case CreateRule(owner, q) =>
      OnePut(db, owner, q);
      p := OnCreateRule(db, owner, q).db.rules[|db.rules|];
    case AddOwnRule(me, q) =>
      OnePut(db, me, q);
      p := OnAddOwnRule(db, me, q).db.rules[|db.rules|];
    case AddOwnRules(me, qs) =>
      var k :| 0 <= k < |qs| && qs[k].port == n && qs[k].enabled;
      BatchPut(db, me, qs, k);
      p := OnAddOwnRules(db, me, qs).db.rules[|db.rules| + k];
    case EditRule(other, owner, q) =>
      EditPut(db, other, owner, q);
      p := OnEditRule(db, other, owner, q).db.rules[RuleIdx(db.rules, other)];
  }

  /** A reload before that closes the stranded listener, and every listener serves its rule again. */
  lemma ReloadHealsStranding(s: Panel, r: Request, tcpFails: set<int>, udpFails: set<int>, tcpFails': set<int>,
                             udpFails': set<int>)
    requires Started(s.db) && Captured(s.db.rules, s.net) && Strands(s, r)
    ensures var after := Refresh(Serve(s, r, tcpFails, udpFails), tcpFails', udpFails');
            Captured(after.db.rules, after.net)
  {
    hide Captured, RuleEditOk, ValidPortNum, RuleIdx, EditedRule, Reloaded;
    var mid := Serve(s, r, tcpFails, udpFails);
    var i := RuleIdx(s.db.rules, r.id);
    EditRuleAccepted(s.db, s.db.rules[i], r.owner, r.rule);
    RefusedEditKeepsFlags(s.db, s.db.rules[i], r.owner, r.rule);
    assert mid.net == s.net && RulePorts(s.db.rules);
    var v := EditedRule(s.db, s.db.rules[i], r.owner, r.rule).0;
    assert mid.db.rules == s.db.rules[i := v];
    hide Serve, Refresh, Strands, Started;
    LeftNumberIsNobodys(s.db.rules, i, v, s.net);
    RefreshCaptures(mid, tcpFails', udpFails');
  }

  lemma LeftNumberIsNobodys(rules: seq<Rule>, i: nat, v: Rule, net: Net)
    requires i < |rules| && RulePorts(rules) && v.port != rules[i].port && Captured(rules, net)
    ensures NoImpostor(rules[i := v], net)
  {
    var rules', old_ := rules[i := v], rules[i].port;
    SortedDesired(rules', old_);
    assert forall p :: p in rules' ==> p.port != old_;
    assert old_ !in Desired(Sorted(rules'));
    forall id, n | Holds(rules, id, n) && n != old_ ensures Holds(rules', id, n) {
      var j :| 0 <= j < |rules| && rules[j].id == id && rules[j].port == n && Active(rules[j]);
      assert rules'[j].id == id;
    }
  }

  lemma OpenNumberStays(net: Net, rules: seq<Rule>, p: Rule, tcpFails: set<int>, udpFails: set<int>)
    requires p in rules && Active(p)
    ensures var net' := Reloaded(net, rules, tcpFails, udpFails);
            && (p.port in net.tcp ==> p.port in net'.tcp && net'.tcp[p.port] == net.tcp[p.port])
            && (p.port in net.udp ==> p.port in net'.udp && net'.udp[p.port] == net.udp[p.port])
  {
    SortedDesired(rules, p.port);
    hide Desired, Sorted;
  }

  lemma HolderOf(rules: seq<Rule>, i: nat, net: Net)
    requires RulePorts(rules) && Captured(rules, net) && i < |rules|
    ensures rules[i].port in net.tcp ==> net.tcp[rules[i].port] == rules[i].id
    ensures rules[i].port in net.udp ==> net.udp[rules[i].port] == rules[i].id
  {
    var n := rules[i].port;
    assert n in net.tcp ==> Holds(rules, net.tcp[n], n);
    assert n in net.udp ==> Holds(rules, net.udp[n], n);
  }

  lemma EditKeepsCounter(db: DB, id: int, owner: int, q: RuleReq)
    ensures OnEditRule(db, id, owner, q).db.seqNo == db.seqNo
  {
    hide EditedRule, RuleIdx;
  }

  lemma OldHolder(s: Panel, r: Request)
    requires Sound(s.db) && Captured(s.db.rules, s.net) && Strands(s, r)
    ensures var n := s.db.rules[RuleIdx(s.db.rules, r.id)].port;
            && (n in s.net.tcp ==> s.net.tcp[n] == r.id) && (n in s.net.udp ==> s.net.udp[n] == r.id)
            && r.id <= s.db.seqNo == Handle(s.db, r).db.seqNo
  {
    hide RuleIdx, WritesNumber, RuleEditOk, Captured, OnEditRule;
    HolderOf(s.db.rules, RuleIdx(s.db.rules, r.id), s.net);
    EditKeepsCounter(s.db, r.id, r.owner, r.rule);
  }
}
