/** Internal ports and the generated realm configuration (realm.go, and the port map of storage.go). */
module Realm {
  import opened Stores
  import opened Decimal
  import opened Registry
  import opened Soundness
  import opened Listing

  const FIRST := 20000
  const LAST := 29999

  // ---------- the specification ----------

  /** The lowest number from `p` on that is not in `used`, within the pool. */
  function LowestUnused(used: set<int>, p: int): (r: Option<int>)
    ensures r.Some? ==> p <= r.value <= LAST && r.value !in used && forall q :: p <= q < r.value ==> q in used
    ensures r.None? ==> forall q :: p <= q <= LAST ==> q in used
    decreases used
  {
    if p > LAST then None else if p !in used then Some(p) else LowestUnused(used - {p}, p + 1)
  }

  /** The internal port of a rule: the one it has, else the lowest free one of the pool. */
  function PortFor(m: map<string, int>, id: int): Option<int> {
    if Print(id) in m then Some(m[Print(id)]) else LowestUnused(m.Values, FIRST)
  }

  function Assign(m: map<string, int>, id: int): map<string, int> {
    var p := PortFor(m, id);
    if p.Some? then m[Print(id) := p.value] else m
  }

  datatype Network = Default | UdpToo | UdpOnly

  /** One [[endpoints]] block; `name` and `listen` stand for "p<name>" and "127.0.0.1:<listen>". */
  datatype Endpoint = Endpoint(name: int, listen: int, remote: string, network: Network)

  function NetworkOf(p: Rule): Network {
    if p.tcp && p.udp then UdpToo else if p.udp then UdpOnly else Default
  }

  datatype Draft = Draft(ports: map<string, int>, endpoints: seq<Endpoint>, keep: set<int>)

  /** One round of the configuration loop. */
  function Round(d: Draft, p: Rule): Draft {
    var port := PortFor(d.ports, p.id);
    if !Active(p) || port.None? then d
    else Draft(Assign(d.ports, p.id), d.endpoints + [EndpointOf(p, port.value)], d.keep + {p.id})
  }

  function EndpointOf(p: Rule, port: int): Endpoint {
    Endpoint(p.port, port, p.target, NetworkOf(p))
  }

  /** The configuration loop over `rules`, before pruning. */
  function Generate(m: map<string, int>, rules: seq<Rule>): Draft {
    if rules == [] then Draft(m, [], {}) else Round(Generate(m, rules[..|rules| - 1]), rules[|rules| - 1])
  }

  function Pruned(m: map<string, int>, keep: set<int>): map<string, int> {
    map k | k in m && (KeyId(k) <= 0 || KeyId(k) in keep) :: m[k]
  }

  predicate HasActive(rules: seq<Rule>) {
    exists i :: 0 <= i < |rules| && Active(rules[i])
  }

  /** apply: without an active rule nothing is written and nothing is pruned. */
  function Applied(db: DB): (DB, seq<Endpoint>) {
    if !HasActive(db.rules) then (db, [])
    else
      var d := Generate(db.realmPorts, Sorted(db.rules));
      (db.(realmPorts := Pruned(d.ports, d.keep)), d.endpoints)
  }

  /** The requests that end in a configuration run, once accepted (applyPorts in api.go). */
  predicate Applies(r: Request) {
    || r.DeleteUser? || r.CreateRule? || r.EditRule? || r.DeleteRule? || r.EditSettings? || r.AddOwnRule?
    || r.AddOwnRules? || r.EditOwnRule? || r.DeleteOwnRule? || r.DeleteOwnRules?
  }

  /** Where the data plane dials for a rule: its target, or an internal port. */
  datatype Address = Straight(target: string) | Internal(port: int) | Exhausted

  function Dial(db: DB, p: Rule): (Address, DB) {
    if db.settings.mode == Mode.Direct then (Straight(p.target), db)
    else match PortFor(db.realmPorts, p.id)
      case None => (Exhausted, db)
      case Some(port) => (Internal(port), db.(realmPorts := Assign(db.realmPorts, p.id)))
  }

  // ---------- the code ----------

  class RealmManager {
    const store: Store
    var endpoints: seq<Endpoint>

    constructor (store: Store)
      ensures this.store == store && endpoints == []
    {
      this.store := store;
      endpoints := [];
    }

    method UsedInternalPorts() returns (out: set<int>)
      ensures out == store.realmPorts.Values
    {
      out := {};
      var keys := store.realmPorts.Keys;
      while keys != {}
        invariant keys <= store.realmPorts.Keys
        invariant out == set k | k in store.realmPorts && k !in keys :: store.realmPorts[k]
        decreases keys
      {
        var k :| k in keys;
        out := out + {store.realmPorts[k]};
        keys := keys - {k};
      }
    }

    method InternalPort(id: int) returns (port: Option<int>)
      modifies store`realmPorts
      ensures port == PortFor(old(store.realmPorts), id)
      ensures store.realmPorts == Assign(old(store.realmPorts), id)
    {
      if Print(id) in store.realmPorts {
        assert store.realmPorts == store.realmPorts[Print(id) := store.realmPorts[Print(id)]];
        return Some(store.realmPorts[Print(id)]);
      }
      var used := UsedInternalPorts();
      ghost var rest := used;
      var p := FIRST;
      while p <= LAST
        invariant FIRST <= p <= LAST + 1
        invariant forall q :: q >= p ==> (q in rest <==> q in used)
        invariant LowestUnused(used, FIRST) == LowestUnused(rest, p)
        invariant store.realmPorts == old(store.realmPorts)
      {
        if p !in used {
          store.realmPorts := store.realmPorts[Print(id) := p];
          return Some(p);
        }
        rest := rest - {p};
        p := p + 1;
      }
      return None;
    }

    method PruneRealmPorts(keep: set<int>)
      modifies store`realmPorts
      ensures store.realmPorts == Pruned(old(store.realmPorts), keep)
    {
      var keys := store.realmPorts.Keys;
      ghost var was := store.realmPorts;
      while keys != {}
        invariant keys <= was.Keys
        invariant store.realmPorts == map k | k in was && (k in keys || KeyId(k) <= 0 || KeyId(k) in keep) :: was[k]
        decreases keys
      {
        var k :| k in keys;
        var id := ParseKey(k);
        if id > 0 && id !in keep {
          store.realmPorts := store.realmPorts - {k};
        }
        keys := keys - {k};
      }
    }

    method GenConfig() returns (config: seq<Endpoint>)
      modifies store`realmPorts
      ensures var d := Generate(old(store.realmPorts), Sorted(store.rules));
              config == d.endpoints && store.realmPorts == Pruned(d.ports, d.keep)
    {
      config := [];
      var keep: set<int> := {};
      var rules := Sorted(store.rules);
      var i := 0;
      while i < |rules|
        invariant 0 <= i <= |rules|
        invariant Draft(store.realmPorts, config, keep) == Generate(old(store.realmPorts), rules[..i])
      {
        var p := rules[i];
        assert rules[..i + 1][..i] == rules[..i];
        i := i + 1;
        if !p.enabled || (!p.tcp && !p.udp) {
          continue;
        }
        ghost var before := store.realmPorts;
        var internal := InternalPort(p.id);
        if internal.None? {
          continue;
        }
        keep := keep + {p.id};
        config := config + [EndpointOf(p, internal.value)];
      }
      assert rules[..|rules|] == rules;
      PruneRealmPorts(keep);
    }

    /** The configuration write is taken to succeed; starting and stopping the child process is left out. */
    method Apply()
      modifies this`endpoints, store`realmPorts
      ensures store.View() == Applied(old(store.View())).0
      ensures HasActive(store.rules) ==> endpoints == Applied(old(store.View())).1
      ensures !HasActive(store.rules) ==> endpoints == old(endpoints)
    {
      var rules := store.rules;
      var active, i := 0, 0;
      while i < |rules|
        invariant 0 <= i <= |rules| && 0 <= active
        invariant active > 0 <==> exists j :: 0 <= j < i && Active(rules[j])
      {
        if rules[i].enabled && (rules[i].tcp || rules[i].udp) {
          active := active + 1;
        }
        i := i + 1;
      }
      if active == 0 {
        return;
      }
      endpoints := GenConfig();
    }

    method DialAddr(p: Rule) returns (a: Address)
      modifies store`realmPorts
      ensures (a, store.View()) == Dial(old(store.View()), p)
    {
      if store.settings.mode == Mode.Direct {
        return Straight(p.target);
      }
      var internal := InternalPort(p.id);
      return if internal.None? then Exhausted else Internal(internal.value);
    }
  }

  // ---------- the port map ----------

  /** Distinct pool ports, filed under printed positive ids. */
  ghost predicate PortsOk(m: map<string, int>) {
    && (forall k :: k in m ==> FIRST <= m[k] <= LAST)
    && (forall k, l :: k in m && l in m && m[k] == m[l] ==> k == l)
    && (forall k :: k in m ==> KeyId(k) >= 1 && k == Print(KeyId(k)))
  }

  lemma AssignKeepsPorts(m: map<string, int>, id: int)
    requires PortsOk(m) && id >= 1
    ensures PortsOk(Assign(m, id))
    ensures forall k :: k in m ==> k in Assign(m, id) && Assign(m, id)[k] == m[k]
    ensures Assign(m, id).Keys == if PortFor(m, id).Some? then m.Keys + {Print(id)} else m.Keys
  {
    PrintThenParse(id);
    var m' := Assign(m, id);
    if Print(id) !in m && PortFor(m, id).Some? {
      var p := PortFor(m, id).value;
      assert forall k :: k in m ==> m[k] in m.Values;
      assert forall k :: k in m ==> m[k] != p;
    }
  }

  // ---------- pigeonhole ----------

  lemma {:induction false} Interval(lo: int, hi: int) returns (pool: set<int>)
    requires lo <= hi + 1
    ensures |pool| == hi - lo + 1
    ensures forall p :: p in pool <==> lo <= p <= hi
    decreases hi - lo
  {
    if lo > hi {
      pool := {};
    } else {
      var rest := Interval(lo + 1, hi);
      pool := {lo} + rest;
    }
  }

  lemma {:induction false} ValuesOfInjective(m: map<string, int>)
    requires forall k, l :: k in m && l in m && m[k] == m[l] ==> k == l
    ensures |m.Values| == |m|
    decreases |m|
  {
    if m != map[] {
      var k :| k in m;
      var rest := m - {k};
      ValuesOfInjective(rest);
      assert m.Values == rest.Values + {m[k]} by {
        forall v | v in m.Values ensures v in rest.Values + {m[k]} {
          var l :| l in m && m[l] == v;
          if l != k { assert l in rest && rest[l] == v; }
        }
      }
      assert m[k] !in rest.Values;
      assert |m| == |rest| + 1 by {
        assert m.Keys == rest.Keys + {k};
        assert |m.Keys| == |m| && |rest.Keys| == |rest|;
      }
    } else {
      assert m.Values == {};
    }
  }

  lemma SubsetSize<T>(a: set<T>, b: set<T>)
    requires a <= b
    ensures |a| <= |b| && (|a| == |b| ==> a == b)
  {
    assert b == a + (b - a);
    assert |b| == |a| + |b - a|;
    if |b - a| == 0 { assert b - a == {}; }
  }

  /** The pool hands out 10000 ports and no more. */
  lemma PoolHoldsTenThousand(m: map<string, int>)
    requires PortsOk(m)
    ensures |m| <= 10000
    ensures LowestUnused(m.Values, FIRST).Some? <==> |m| < 10000
  {
    ValuesOfInjective(m);
    PoolBoundsValues(m.Values);
  }

  lemma PoolBoundsValues(used: set<int>)
    requires forall v :: v in used ==> FIRST <= v <= LAST
    ensures |used| <= 10000
    ensures LowestUnused(used, FIRST).Some? <==> |used| < 10000
  {
    var pool := Interval(FIRST, LAST);
    forall v | v in used ensures v in pool {
    }
    FirstFitFindsTheGap(used, pool);
  }

  /** First fit finds a port whenever the used ones are fewer than the pool, and only then. */
  lemma FirstFitFindsTheGap(used: set<int>, pool: set<int>)
    requires used <= pool
    requires forall p :: p in pool <==> FIRST <= p <= LAST
    ensures |used| <= |pool|
    ensures LowestUnused(used, FIRST).Some? <==> |used| < |pool|
  {
    SubsetSize(used, pool);
    var r := LowestUnused(used, FIRST);
    if r.None? {
      assert used == pool;
    } else {
      assert r.value in pool && r.value !in used;
    }
  }

  // ---------- generating ----------

  ghost predicate GoodIds(rules: seq<Rule>) {
    && (forall i :: 0 <= i < |rules| ==> rules[i].id >= 1)
    && (forall i, j :: 0 <= i < j < |rules| ==> rules[i].id != rules[j].id)
  }

  /** The keys of the active rules. */
  function ActiveKeys(rules: seq<Rule>): set<string> {
    set i | 0 <= i < |rules| && Active(rules[i]) :: Print(rules[i].id)
  }

  lemma ActiveKeysOfOneMore(rules: seq<Rule>)
    requires rules != []
    ensures var p := rules[|rules| - 1];
            ActiveKeys(rules) == ActiveKeys(rules[..|rules| - 1]) + (if Active(p) then {Print(p.id)} else {})
  {
    hide Print, Active;
    var pre := rules[..|rules| - 1];
    forall k | k in ActiveKeys(rules) && !(Active(rules[|pre|]) && k == Print(rules[|pre|].id)) ensures k in ActiveKeys(pre) {
      var i :| 0 <= i < |rules| && Active(rules[i]) && Print(rules[i].id) == k;
      assert pre[i] == rules[i];
    }
    forall k | k in ActiveKeys(pre) ensures k in ActiveKeys(rules) {
      var i :| 0 <= i < |pre| && Active(pre[i]) && Print(pre[i].id) == k;
      assert rules[i] == pre[i];
    }
  }

  /** What the loop does to the map: old entries stay, and as long as everything fits, exactly the active rules join. */
  ghost predicate Extends(m: map<string, int>, ports: map<string, int>, active: set<string>) {
    && PortsOk(ports)
    && (forall k :: k in m ==> k in ports && ports[k] == m[k])
    && ports.Keys <= m.Keys + active
    && (|m.Keys + active| <= 10000 ==> ports.Keys == m.Keys + active)
  }

  lemma {:induction false} GenerateExtends(m: map<string, int>, rules: seq<Rule>)
    requires PortsOk(m) && GoodIds(rules)
    ensures Extends(m, Generate(m, rules).ports, ActiveKeys(rules))
  {
    if rules == [] {
      assert ActiveKeys(rules) == {};
      NothingAdded(m);
    } else {
      hide Extends;
      hide ActiveKeys;
      hide PortsOk;
      hide Assign;
      hide PortFor;
      var pre, p := rules[..|rules| - 1], rules[|rules| - 1];
      GenerateExtends(m, pre);
      ActiveKeysOfOneMore(rules);
      var d := Generate(m, pre);
      if Active(p) {
        ExtendsOneMore(m, d.ports, ActiveKeys(pre), p.id);
        RoundPorts(d, p);
      }
    }
  }

  lemma NothingAdded(m: map<string, int>)
    requires PortsOk(m)
    ensures Extends(m, m, {})
  {
  }

  lemma RoundPorts(d: Draft, p: Rule)
    requires Active(p)
    ensures Round(d, p).ports == Assign(d.ports, p.id)
  {
  }

  lemma ExtendsOneMore(m: map<string, int>, ports: map<string, int>, active: set<string>, id: int)
    requires Extends(m, ports, active) && id >= 1
    ensures Extends(m, Assign(ports, id), active + {Print(id)})
  {
    AssignKeepsPorts(ports, id);
    PoolHoldsTenThousand(ports);
    var key := Print(id);
    assert key !in ports && |ports| < 10000 ==> PortFor(ports, id).Some?;
    WithOneMore(m, ports, active, Assign(ports, id), key);
  }

  lemma WithOneMore(m: map<string, int>, ports: map<string, int>, active: set<string>, ports': map<string, int>, key: string)
    requires Extends(m, ports, active) && PortsOk(ports')
    requires forall k :: k in ports ==> k in ports' && ports'[k] == ports[k]
    requires ports'.Keys <= ports.Keys + {key}
    requires key !in ports && |ports| < 10000 ==> key in ports'
    ensures Extends(m, ports', active + {key})
  {
    hide PortsOk;
    assert m.Keys + (active + {key}) == m.Keys + active + {key};
    assert |ports| == |ports.Keys|;
    KeysOneMore(m.Keys + active, ports.Keys, ports'.Keys, key);
  }

  lemma KeysOneMore(all: set<string>, keys: set<string>, keys': set<string>, key: string)
    requires keys <= all && (|all| <= 10000 ==> keys == all)
    requires keys <= keys' <= keys + {key}
    requires key !in keys && |keys| < 10000 ==> key in keys'
    ensures keys' <= all + {key} && (|all + {key}| <= 10000 ==> keys' == all + {key})
  {
    if |all + {key}| <= 10000 {
      SubsetSize(all, all + {key});
      assert keys == all;
      if key in all {
        assert all + {key} == all;
      } else {
        assert |all + {key}| == |all| + 1;
      }
    }
  }

  /** The rules that got an endpoint, in the order of the endpoints. */
  ghost function ServedRules(m: map<string, int>, rules: seq<Rule>): seq<Rule> {
    if rules == [] then []
    else
      var pre, p := rules[..|rules| - 1], rules[|rules| - 1];
      ServedRules(m, pre) + (if Active(p) && PortFor(Generate(m, pre).ports, p.id).Some? then [p] else [])
  }

  ghost predicate InStep(d: Draft, served: seq<Rule>) {
    && |served| == |d.endpoints|
    && (forall i :: 0 <= i < |served| ==>
          Print(served[i].id) in d.ports && d.endpoints[i] == EndpointOf(served[i], d.ports[Print(served[i].id)]))
  }

  ghost predicate KeepOf(d: Draft, served: seq<Rule>, rules: seq<Rule>) {
    && (forall i :: 0 <= i < |served| ==> served[i] in rules && Active(served[i]) && served[i].id in d.keep)
    && (forall id :: id in d.keep ==> exists i :: 0 <= i < |served| && served[i].id == id)
  }

  ghost predicate Complete(d: Draft, served: seq<Rule>, rules: seq<Rule>) {
    forall p :: p in rules && Active(p) && Print(p.id) in d.ports ==> p in served
  }

  lemma InStepOneMore(d: Draft, served: seq<Rule>, p: Rule)
    requires PortsOk(d.ports) && InStep(d, served) && p.id >= 1 && Active(p) && PortFor(d.ports, p.id).Some?
    ensures InStep(Round(d, p), served + [p])
  {
  }

  lemma CompleteOneMore(d: Draft, served: seq<Rule>, rules: seq<Rule>, p: Rule)
    requires PortsOk(d.ports) && Complete(d, served, rules) && GoodIds(rules + [p])
    ensures Complete(Round(d, p), if Active(p) && PortFor(d.ports, p.id).Some? then served + [p] else served, rules + [p])
  {
    var all := rules + [p];
    assert all[|rules|] == p && forall i :: 0 <= i < |rules| ==> all[i] == rules[i];
    AssignKeepsPorts(d.ports, p.id);
    forall q | q in rules ensures Print(q.id) != Print(p.id) {
      var i :| 0 <= i < |rules| && rules[i] == q;
      PrintIsInjective(q.id, p.id);
    }
    hide Print;
  }

  lemma {:induction false} GenerateServes(m: map<string, int>, rules: seq<Rule>)
    requires PortsOk(m) && GoodIds(rules)
    ensures Serves(Generate(m, rules), ServedRules(m, rules), rules)
  {
    if rules != [] {
      var pre, p := rules[..|rules| - 1], rules[|rules| - 1];
      assert rules == pre + [p];
      GenerateServes(m, pre);
      GenerateExtends(m, pre);
      var d := Generate(m, pre);
      assert PortsOk(d.ports);
      hide PortsOk;
      hide Serves;
      hide Extends;
      hide GoodIds;
      hide PortFor;
      hide Round;
      ServesOneMore(d, ServedRules(m, pre), pre, p);
    }
  }

  ghost predicate Serves(d: Draft, served: seq<Rule>, rules: seq<Rule>) {
    InStep(d, served) && KeepOf(d, served, rules) && Complete(d, served, rules) && GoodIds(served)
  }

  lemma ServesOneMore(d: Draft, served: seq<Rule>, rules: seq<Rule>, p: Rule)
    requires PortsOk(d.ports) && Serves(d, served, rules) && GoodIds(rules + [p])
    ensures Serves(Round(d, p), served + (if Active(p) && PortFor(d.ports, p.id).Some? then [p] else []), rules + [p])
  {
    CompleteOneMore(d, served, rules, p);
    assert (rules + [p])[|rules|] == p;
    hide PortsOk;
    hide Complete;
    if Active(p) && PortFor(d.ports, p.id).Some? {
      InStepOneMore(d, served, p);
      KeepOneMore(d, served, rules, p);
    } else {
      assert served + [] == served;
      assert Round(d, p) == d;
      assert forall q :: q in rules ==> q in rules + [p];
    }
  }

  lemma KeepOneMore(d: Draft, served: seq<Rule>, rules: seq<Rule>, p: Rule)
    requires KeepOf(d, served, rules) && GoodIds(served) && GoodIds(rules + [p])
    requires Active(p) && PortFor(d.ports, p.id).Some?
    ensures KeepOf(Round(d, p), served + [p], rules + [p]) && GoodIds(served + [p])
  {
    hide PortFor;
    hide Assign;
    var all, more, keep := rules + [p], served + [p], Round(d, p).keep;
    assert keep == d.keep + {p.id};
    assert all[|rules|] == p && forall i :: 0 <= i < |rules| ==> all[i] == rules[i];
    forall i | 0 <= i < |served| ensures served[i].id != p.id && served[i] in all {
      assert served[i] in rules;
    }
    forall id | id in keep ensures exists i :: 0 <= i < |more| && more[i].id == id {
      if id == p.id {
        assert more[|served|].id == id;
      } else {
        var i :| 0 <= i < |served| && served[i].id == id;
        assert more[i].id == id;
      }
    }
  }

  /** No two endpoints listen on the same port. */
  lemma ListensDiffer(d: Draft, served: seq<Rule>, i: nat, j: nat)
    requires PortsOk(d.ports) && InStep(d, served) && GoodIds(served) && i < |served| && j < |served|
    requires d.endpoints[i].listen == d.endpoints[j].listen
    ensures i == j
  {
    PrintIsInjective(served[i].id, served[j].id);
  }

  // ---------- sorting changes nothing ----------

  lemma {:induction false} InsertMembers(s: seq<Rule>, p: Rule)
    ensures forall x :: x in Insert(s, p) <==> x in s || x == p
    ensures |Insert(s, p)| == |s| + 1
  {
    if s != [] && s[|s| - 1].port > p.port {
      InsertMembers(s[..|s| - 1], p);
      assert s == s[..|s| - 1] + [s[|s| - 1]];
    }
  }

  lemma {:induction false} InsertIds(s: seq<Rule>, p: Rule)
    requires GoodIds(s) && p.id >= 1 && forall i :: 0 <= i < |s| ==> s[i].id != p.id
    ensures GoodIds(Insert(s, p))
  {
    if s != [] && s[|s| - 1].port > p.port {
      var pre := s[..|s| - 1];
      InsertIds(pre, p);
      InsertMembers(pre, p);
      var r := Insert(pre, p);
      forall i | 0 <= i < |r| ensures r[i].id != s[|s| - 1].id {
        assert r[i] in r;
      }
    }
  }

  lemma {:induction false} SortedIsSame(rules: seq<Rule>)
    ensures forall x :: x in Sorted(rules) <==> x in rules
    ensures GoodIds(rules) ==> GoodIds(Sorted(rules))
    ensures |Sorted(rules)| == |rules|
  {
    if rules != [] {
      var pre, p := rules[..|rules| - 1], rules[|rules| - 1];
      SortedIsSame(pre);
      InsertMembers(Sorted(pre), p);
      assert rules == pre + [p];
      if GoodIds(rules) {
        assert forall i :: 0 <= i < |pre| ==> rules[i] == pre[i];
        assert GoodIds(pre);
        forall i | 0 <= i < |Sorted(pre)| ensures Sorted(pre)[i].id != p.id {
          assert Sorted(pre)[i] in pre;
        }
        InsertIds(Sorted(pre), p);
      }
    }
  }

  lemma SameActiveKeys(rules: seq<Rule>)
    ensures ActiveKeys(Sorted(rules)) == ActiveKeys(rules)
  {
    SortedIsSame(rules);
    var s := Sorted(rules);
    forall k | k in ActiveKeys(rules) ensures k in ActiveKeys(s) {
      var i :| 0 <= i < |rules| && Active(rules[i]) && Print(rules[i].id) == k;
      assert rules[i] in s;
    }
    forall k | k in ActiveKeys(s) ensures k in ActiveKeys(rules) {
      var i :| 0 <= i < |s| && Active(s[i]) && Print(s[i].id) == k;
      assert s[i] in rules;
    }
  }

  // ---------- main results ----------

  /** Old entries and active rules together fit into the pool. */
  ghost predicate Fits(db: DB) {
    |db.realmPorts.Keys + ActiveKeys(db.rules)| <= 10000
  }

  ghost predicate Ready(db: DB) {
    Started(db) && PortsOk(db.realmPorts)
  }

  lemma PrunedKeys(m: map<string, int>, keep: set<int>)
    requires PortsOk(m) && forall id :: id in keep ==> id >= 1 && Print(id) in m
    ensures Pruned(m, keep).Keys == KeysOf(keep) && PortsOk(Pruned(m, keep))
  {
    forall id | id in keep ensures KeyId(Print(id)) == id {
      PrintThenParse(id);
    }
  }

  /** Facts about one run of the configuration loop on the rules of a ready database. */
  lemma DraftOf(db: DB) returns (d: Draft, served: seq<Rule>)
    requires Ready(db)
    ensures d == Generate(db.realmPorts, Sorted(db.rules))
    ensures Extends(db.realmPorts, d.ports, ActiveKeys(db.rules))
    ensures Serves(d, served, db.rules)
    ensures forall id :: id in d.keep ==> id >= 1 && Print(id) in d.ports
  {
    var rules := Sorted(db.rules);
    SortedIsSame(db.rules);
    SameActiveKeys(db.rules);
    GenerateExtends(db.realmPorts, rules);
    GenerateServes(db.realmPorts, rules);
    d, served := Generate(db.realmPorts, rules), ServedRules(db.realmPorts, rules);
  }

  /** Applying keeps the map sound: distinct pool ports under printed ids. */
  lemma ApplyKeepsPorts(db: DB)
    requires Ready(db)
    ensures Ready(Applied(db).0)
  {
    if HasActive(db.rules) {
      var d, served := DraftOf(db);
      PrunedKeys(d.ports, d.keep);
    }
  }

  lemma KeptPort(db: DB, d: Draft, served: seq<Rule>, p: Rule)
    requires Ready(db) && HasActive(db.rules) && d == Generate(db.realmPorts, Sorted(db.rules))
    requires PortsOk(d.ports) && Serves(d, served, db.rules)
    requires p in db.rules && Active(p) && Print(p.id) in d.ports
    ensures var m := Applied(db).0.realmPorts; Print(p.id) in m && m[Print(p.id)] == d.ports[Print(p.id)]
  {
    PrintThenParse(p.id);
    assert p in served;
  }

  /** A rule that is active keeps the port it had. */
  lemma ActiveRulesKeepTheirPort(db: DB, p: Rule)
    requires Ready(db) && p in db.rules && Active(p) && Print(p.id) in db.realmPorts
    ensures var m := Applied(db).0.realmPorts;
            Print(p.id) in m && m[Print(p.id)] == db.realmPorts[Print(p.id)]
  {
    if HasActive(db.rules) {
      var d, served := DraftOf(db);
      KeptPort(db, d, served, p);
    }
  }

  lemma KeepIsActive(rules: seq<Rule>, d: Draft, served: seq<Rule>)
    requires Serves(d, served, rules)
    ensures KeysOf(d.keep) == ActiveKeys(rules) * d.ports.Keys
  {
  }

  /** After a configuration run the map is exactly the active rules in these cases and no others: with an active rule,
      when old entries and active rules together number at most 10000; without one, nothing is pruned, so only when
      the map was empty before. */
  lemma AppliedMapIsTheActiveRules(db: DB)
    requires Ready(db)
    ensures Applied(db).0.realmPorts.Keys == ActiveKeys(db.rules)
       <==> if HasActive(db.rules) then Fits(db) else db.realmPorts == map[]
    ensures HasActive(db.rules) ==> Applied(db).0.realmPorts.Keys <= ActiveKeys(db.rules)
  {
    if HasActive(db.rules) {
      AppliedWithActive(db);
    } else {
      assert ActiveKeys(db.rules) == {};
      assert db.realmPorts.Keys == {} <==> db.realmPorts == map[];
    }
  }

  lemma AppliedWithActive(db: DB)
    requires Ready(db) && HasActive(db.rules)
    ensures Applied(db).0.realmPorts.Keys <= ActiveKeys(db.rules)
    ensures Applied(db).0.realmPorts.Keys == ActiveKeys(db.rules) <==> Fits(db)
  {
    var d, served := DraftOf(db);
    PrunedKeys(d.ports, d.keep);
    KeepIsActive(db.rules, d, served);
    AllServedMeansFit(db.realmPorts, d.ports, ActiveKeys(db.rules));
  }

  lemma AllServedMeansFit(m: map<string, int>, ports: map<string, int>, active: set<string>)
    requires Extends(m, ports, active)
    ensures active <= ports.Keys <==> |m.Keys + active| <= 10000
    ensures active * ports.Keys == active <==> active <= ports.Keys
  {
    if active <= ports.Keys {
      assert ports.Keys == m.Keys + active;
      PoolHoldsTenThousand(ports);
      assert |ports| == |ports.Keys|;
    }
  }

  lemma FittingRuleHasAPort(db: DB, d: Draft, p: Rule)
    requires Fits(db) && p in db.rules && Active(p) && Extends(db.realmPorts, d.ports, ActiveKeys(db.rules))
    ensures Print(p.id) in d.ports
  {
  }

  /** realm passes TCP on unless that is switched off, and UDP only if it is switched on. */
  predicate CarriesTcp(n: Network) { n == Default || n == UdpToo }

  predicate CarriesUdp(n: Network) { n == UdpToo || n == UdpOnly }

  /** Exactly one endpoint listens on `port`; it passes on to the rule's target, TCP if and only if the rule has TCP, and UDP
      if and only if the rule has UDP. */
  ghost predicate ServesTarget(endpoints: seq<Endpoint>, p: Rule, port: int) {
    exists i :: OnlyListener(endpoints, port, i) && PassesOn(endpoints[i], p)
  }

  ghost predicate OnlyListener(endpoints: seq<Endpoint>, port: int, i: int) {
    && 0 <= i < |endpoints| && endpoints[i].listen == port
    && forall j :: 0 <= j < |endpoints| && endpoints[j].listen == port ==> j == i
  }

  predicate PassesOn(e: Endpoint, p: Rule) {
    e.remote == p.target && (CarriesTcp(e.network) <==> p.tcp) && (CarriesUdp(e.network) <==> p.udp)
  }

  lemma EndpointPassesOn(p: Rule, port: int)
    requires Active(p)
    ensures EndpointOf(p, port).listen == port && PassesOn(EndpointOf(p, port), p)
  {
  }

  /** After applying, each active rule has a port, and exactly one endpoint listens on it and passes on to its target. */
  lemma AppliedPortIsServed(db: DB, i: nat)
    requires Ready(db) && Fits(db) && i < |db.rules| && Active(db.rules[i])
    ensures var (db', endpoints) := Applied(db);
            var key := Print(db.rules[i].id);
            key in db'.realmPorts && ServesTarget(endpoints, db.rules[i], db'.realmPorts[key])
  {
    var d, served := DraftOf(db);
    var p := db.rules[i];
    FittingRuleHasAPort(db, d, p);
    hide Print;
    ServedIsReached(d, served, db.rules, p);
    KeptPort(db, d, served, p);
  }

  /** And no other endpoint is written: each is named after the number of an active rule, listens on that rule's port and
      serves it. */
  lemma EndpointsAreActiveRules(db: DB, j: nat) returns (i: nat)
    requires Ready(db) && j < |Applied(db).1|
    ensures i < |db.rules| && Active(db.rules[i])
    ensures var (db', endpoints) := Applied(db);
            var key := Print(db.rules[i].id);
            && key in db'.realmPorts && endpoints[j].listen == db'.realmPorts[key] && endpoints[j].name == db.rules[i].port
            && ServesTarget(endpoints, db.rules[i], endpoints[j].listen)
  {
    hide Print, ServesTarget, Generate, Serves, PortsOk, EndpointOf;
    var d, served := DraftOf(db);
    assert d.endpoints == Applied(db).1;
    assert PortsOk(d.ports) by { DraftPortsOk(db); }
    i := EndpointFor(d, served, db.rules, j);
    KeptPort(db, d, served, db.rules[i]);
    ServedIsReached(d, served, db.rules, db.rules[i]);
  }

  lemma DraftPortsOk(db: DB)
    requires Ready(db)
    ensures PortsOk(Generate(db.realmPorts, Sorted(db.rules)).ports)
  {
    SortedIsSame(db.rules);
    GenerateExtends(db.realmPorts, Sorted(db.rules));
    hide PortsOk, Generate;
  }

  lemma EndpointFor(d: Draft, served: seq<Rule>, rules: seq<Rule>, j: nat) returns (i: nat)
    requires Serves(d, served, rules) && j < |d.endpoints|
    ensures i < |rules| && Active(rules[i]) && Print(rules[i].id) in d.ports
    ensures d.endpoints[j].listen == d.ports[Print(rules[i].id)] && d.endpoints[j].name == rules[i].port
  {
    hide Print;
    assert served[j] in rules && d.endpoints[j] == EndpointOf(served[j], d.ports[Print(served[j].id)]);
    i :| 0 <= i < |rules| && rules[i] == served[j];
  }

  /** So what the data plane dials for an active rule in realm mode is the listen port of exactly one endpoint, and that
      endpoint's remote is the rule's target; dialling allocates nothing. */
  lemma DialledPortIsServed(db: DB, i: nat)
    requires Ready(db) && Fits(db) && i < |db.rules| && Active(db.rules[i]) && db.settings.mode != Mode.Direct
    ensures var (db', endpoints) := Applied(db);
            var (a, db'') := Dial(db', db.rules[i]);
            db'' == db' && a.Internal? && ServesTarget(endpoints, db.rules[i], a.port)
  {
    AppliedPortIsServed(db, i);
    hide Dial, Print;
    DialOf(Applied(db).0, db.rules[i]);
  }

  lemma ServedIsReached(d: Draft, served: seq<Rule>, rules: seq<Rule>, p: Rule)
    requires PortsOk(d.ports) && Serves(d, served, rules) && p in rules && Active(p) && Print(p.id) in d.ports
    ensures ServesTarget(d.endpoints, p, d.ports[Print(p.id)])
  {
    hide Print, EndpointOf, PassesOn, PortsOk, Generate;
    assert p in served;
    var i :| 0 <= i < |served| && served[i] == p;
    var port := d.ports[Print(p.id)];
    assert d.endpoints[i] == EndpointOf(p, port);
    EndpointPassesOn(p, port);
    forall j | 0 <= j < |d.endpoints| && d.endpoints[j].listen == port ensures j == i {
      ListensDiffer(d, served, i, j);
    }
    assert OnlyListener(d.endpoints, port, i);
  }

  lemma DialOf(db: DB, p: Rule)
    requires Print(p.id) in db.realmPorts && db.settings.mode != Mode.Direct
    ensures Dial(db, p) == (Internal(db.realmPorts[Print(p.id)]), db)
  {
    hide Print;
    assert db.realmPorts[Print(p.id) := db.realmPorts[Print(p.id)]] == db.realmPorts;
  }
}
