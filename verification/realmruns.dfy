/** Whole runs of requests, configuration runs and dials against the internal port map (realm.go, storage.go). */
module RealmRuns {
  import opened Stores
  import opened Decimal
  import opened Registry
  import opened Soundness
  import opened Answers
  import opened Realm

  /** What touches the port map: a request, a configuration run, a dial for any rule that ever was. */
  datatype Event = Serve(r: Request) | Apply | DialFor(p: Rule)

  function Step(db: DB, e: Event): DB {
    match e
    case Serve(r) => Handle(db, r).db
    case Apply => Applied(db).0
    case DialFor(p) => Dial(db, p).1
  }

  function Steps(db: DB, es: seq<Event>): DB {
    if es == [] then db else Step(Steps(db, es[..|es| - 1]), es[|es| - 1])
  }

  lemma FewerPortsAreOk(m: map<string, int>, gone: set<string>)
    requires PortsOk(m)
    ensures PortsOk(m - gone)
  {
  }

  lemma {:induction false} BatchPorts(db: DB, me: int, qs: seq<RuleReq>)
    ensures AppendRules(db, me, qs).realmPorts == db.realmPorts
  {
    if qs != [] { BatchPorts(db, me, qs[..|qs| - 1]); }
  }

  /** Requests only ever release ports. */
  lemma RequestsRelease(db: DB, r: Request)
    requires PortsOk(db.realmPorts)
    ensures PortsOk(Handle(db, r).db.realmPorts)
  {
    match r
    case DeleteUser(id, me) => FewerPortsAreOk(db.realmPorts, KeysOf(IdsOf(db.rules, id)));
    case DeleteRule(id) => FewerPortsAreOk(db.realmPorts, KeysOf({id}));
    case DeleteOwnRule(_, id) => FewerPortsAreOk(db.realmPorts, KeysOf({id}));
    case DeleteOwnRules(_, ids) => FewerPortsAreOk(db.realmPorts, KeysOf(set i | 0 <= i < |ids| :: ids[i]));
    case AddOwnRules(me, qs) => BatchPorts(db, me, qs);
    case _ =>
  }

  lemma DialKeepsReady(db: DB, p: Rule)
    requires Ready(db) && p.id >= 1
    ensures Ready(Dial(db, p).1)
  {
    AssignKeepsPorts(db.realmPorts, p.id);
  }

  /** Over any run of requests, configuration runs and dials, the map stays injective and inside the pool. */
  lemma {:induction false} PortsStayOk(db: DB, es: seq<Event>)
    requires Ready(db) && forall i :: 0 <= i < |es| && es[i].DialFor? ==> es[i].p.id >= 1
    ensures Ready(Steps(db, es))
  {
    if es != [] {
      var pre, e := es[..|es| - 1], es[|es| - 1];
      PortsStayOk(db, pre);
      var d := Steps(db, pre);
      match e
      case Serve(r) => RequestIsSound(d, r); RequestsRelease(d, r);
      case Apply => ApplyKeepsPorts(d);
      case DialFor(p) => DialKeepsReady(d, p);
    }
  }

  /** Rule `id` exists and is active. */
  ghost predicate ActiveId(rules: seq<Rule>, id: int) {
    exists i :: 0 <= i < |rules| && rules[i].id == id && Active(rules[i])
  }

  ghost predicate SamePort(m: map<string, int>, m': map<string, int>, id: int) {
    Print(id) in m && Print(id) in m' && m'[Print(id)] == m[Print(id)]
  }

  lemma DropKeepsPort(m: map<string, int>, ids: set<int>, id: int)
    requires id >= 1 && id !in ids && (forall i :: i in ids ==> i >= 1) && Print(id) in m
    ensures SamePort(m, m - KeysOf(ids), id)
  {
    if Print(id) in KeysOf(ids) {
      var i :| i in ids && Print(i) == Print(id);
      PrintIsInjective(i, id);
    }
  }

  lemma IdOfAnother(rules: seq<Rule>, top: int, user: int, p: Rule)
    requires RuleIds(rules, top) && p in rules && p.user != user
    ensures p.id !in IdsOf(rules, user)
    ensures forall i :: i in IdsOf(rules, user) ==> i >= 1
  {
  }

  lemma DeletedUserKeepsPort(db: DB, user: int, me: int, id: int)
    requires Sound(db) && IdIn(OnDeleteUser(db, user, me).db.rules, id) && Print(id) in db.realmPorts
    ensures SamePort(db.realmPorts, OnDeleteUser(db, user, me).db.realmPorts, id)
  {
    hide Print;
    var r := OnDeleteUser(db, user, me);
    if r.ok {
      var i :| 0 <= i < |r.db.rules| && r.db.rules[i].id == id;
      assert r.db.rules[i] in RulesNotOf(db.rules, user);
      IdOfAnother(db.rules, db.seqNo, user, r.db.rules[i]);
      hide IdsOf;
      assert id >= 1 by { assert r.db.rules[i] in db.rules; }
      DropKeepsPort(db.realmPorts, IdsOf(db.rules, user), id);
    }
  }

  lemma DroppedRulesKeepPort(db: DB, ids: set<int>, id: int)
    requires Sound(db) && IdIn(RulesWithout(db.rules, ids), id) && Print(id) in db.realmPorts
    requires forall i :: i in ids ==> RuleByID(db.rules, i).Some?
    ensures SamePort(db.realmPorts, DropRules(db, ids).realmPorts, id)
  {
    var rules' := RulesWithout(db.rules, ids);
    var i :| 0 <= i < |rules'| && rules'[i].id == id;
    assert rules'[i] in rules';
    forall k | k in ids ensures k >= 1 {
      assert db.rules[RuleIdx(db.rules, k)].id == k;
    }
    DropKeepsPort(db.realmPorts, ids, id);
  }

  /** A request takes no port away from a rule that is there afterwards. */
  lemma RequestKeepsPort(db: DB, r: Request, id: int)
    requires Sound(db) && IdIn(Handle(db, r).db.rules, id) && Print(id) in db.realmPorts
    ensures SamePort(db.realmPorts, Handle(db, r).db.realmPorts, id)
  {
    match r
    case DeleteUser(user, me) => DeletedUserKeepsPort(db, user, me, id);
    case DeleteRule(_) => DropRequestKeepsPort(db, r, id);
    case DeleteOwnRule(_, _) => DropRequestKeepsPort(db, r, id);
    case DeleteOwnRules(_, _) => DropRequestKeepsPort(db, r, id);
    case AddOwnRules(me, qs) => BatchPorts(db, me, qs);
    case _ =>
  }

  lemma DropRequestKeepsPort(db: DB, r: Request, id: int)
    requires r.DeleteRule? || r.DeleteOwnRule? || r.DeleteOwnRules?
    requires Sound(db) && IdIn(Handle(db, r).db.rules, id) && Print(id) in db.realmPorts
    ensures SamePort(db.realmPorts, Handle(db, r).db.realmPorts, id)
  {
    hide Print;
    hide IdIn;
    hide KeysOf;
    hide Sound;
    if Handle(db, r).ok {
      match r
      case DeleteRule(gone) => DroppedRulesKeepPort(db, {gone}, id);
      case DeleteOwnRule(_, gone) => DroppedRulesKeepPort(db, {gone}, id);
      case DeleteOwnRules(_, ids) => DroppedRulesKeepPort(db, set i | 0 <= i < |ids| :: ids[i], id);
    }
  }

  /** Rule `id` is active after every part of the run. */
  ghost predicate AlwaysActive(db: DB, es: seq<Event>, id: int) {
    forall n :: 0 <= n <= |es| ==> ActiveId(Steps(db, es[..n]).rules, id)
  }

  lemma AlwaysActiveBefore(db: DB, es: seq<Event>, id: int)
    requires es != [] && AlwaysActive(db, es, id)
    ensures AlwaysActive(db, es[..|es| - 1], id)
    ensures ActiveId(Steps(db, es[..|es| - 1]).rules, id) && ActiveId(Steps(db, es).rules, id)
  {
    hide ActiveId, Steps;
    var pre := es[..|es| - 1];
    assert es[..|es|] == es;
    forall n | 0 <= n <= |pre| ensures ActiveId(Steps(db, pre[..n]).rules, id) {
      assert pre[..n] == es[..n];
    }
  }

  /** A rule that stays active keeps its port, over any run. */
  lemma {:induction false} PortNeverChanges(db: DB, es: seq<Event>, id: int)
    requires Ready(db) && Print(id) in db.realmPorts && AlwaysActive(db, es, id)
    requires forall i :: 0 <= i < |es| && es[i].DialFor? ==> es[i].p.id >= 1
    ensures SamePort(db.realmPorts, Steps(db, es).realmPorts, id)
  {
    if es != [] {
      AlwaysActiveBefore(db, es, id);
      hide Ready, AlwaysActive, ActiveId, Step, Print, PortsOk;
      var pre, e := es[..|es| - 1], es[|es| - 1];
      PortNeverChanges(db, pre, id);
      PortsStayOk(db, pre);
      StepKeepsPort(Steps(db, pre), e, id);
    }
  }

  lemma StepKeepsPort(db: DB, e: Event, id: int)
    requires Ready(db) && ActiveId(db.rules, id) && ActiveId(Step(db, e).rules, id) && Print(id) in db.realmPorts
    requires e.DialFor? ==> e.p.id >= 1
    ensures SamePort(db.realmPorts, Step(db, e).realmPorts, id)
  {
    assert Sound(db) && PortsOk(db.realmPorts);
    hide Sound;
    hide PortsOk;
    assert IdIn(Step(db, e).rules, id);
    hide ActiveId;
    hide IdIn;
    hide Applied;
    hide Handle;
    hide Print;
    hide Dial;
    match e
    case Serve(r) => RequestKeepsPort(db, r, id);
    case Apply => ApplyKeepsPortOf(db, id);
    case DialFor(p) => DialKeepsPortOf(db, p, id);
  }

  lemma DialKeepsPortOf(db: DB, p: Rule, id: int)
    requires PortsOk(db.realmPorts) && Print(id) in db.realmPorts && p.id >= 1
    ensures SamePort(db.realmPorts, Dial(db, p).1.realmPorts, id)
  {
    AssignKeepsPorts(db.realmPorts, p.id);
  }

  lemma ApplyKeepsPortOf(db: DB, id: int)
    requires Ready(db) && ActiveId(db.rules, id) && Print(id) in db.realmPorts
    ensures SamePort(db.realmPorts, Applied(db).0.realmPorts, id)
  {
    var i :| 0 <= i < |db.rules| && db.rules[i].id == id && Active(db.rules[i]);
    hide Applied;
    ActiveRulesKeepTheirPort(db, db.rules[i]);
  }

  /** After any run, a configuration run leaves every active rule served, if all fits. */
  lemma EveryActiveRuleIsServed(db: DB, es: seq<Event>, d: DB, i: nat)
    requires Ready(db) && (forall k :: 0 <= k < |es| && es[k].DialFor? ==> es[k].p.id >= 1) && d == Steps(db, es)
    requires Fits(d) && i < |d.rules| && Active(d.rules[i]) && d.settings.mode != Mode.Direct
    ensures var (d', endpoints) := Applied(d);
            var (a, d'') := Dial(d', d.rules[i]);
            d'' == d' && a.Internal? && ServesTarget(endpoints, d.rules[i], a.port)
  {
    PortsStayOk(db, es);
    DialledPortIsServed(d, i);
  }
}
