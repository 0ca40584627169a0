/** The endpoints last written, over whole runs: do they still serve what the data plane dials? (realm.go, api.go) */
module RealmServing {
  import opened Stores
  import opened Decimal
  import opened Registry
  import opened Soundness
  import opened Answers
  import opened Realm
  import opened RealmRuns

  /** The database, and the endpoints of the configuration last written. */
  datatype Site = Site(db: DB, endpoints: seq<Endpoint>)

  function Refreshed(s: Site): Site {
    var (db, endpoints) := Applied(s.db);
    Site(db, if HasActive(s.db.rules) then endpoints else s.endpoints)
  }

  /** An accepted change of rules or settings is followed by a configuration run; everything else is not. */
  function After(s: Site, e: Event): Site {
    match e
    case Serve(r) =>
      var s' := s.(db := Handle(s.db, r).db);
      if Applies(r) && Handle(s.db, r).ok then Refreshed(s') else s'
    case Apply => Refreshed(s)
    case DialFor(p) => s.(db := Dial(s.db, p).1)
  }

  function Sites(s: Site, es: seq<Event>): Site {
    if es == [] then s else After(Sites(s, es[..|es| - 1]), es[|es| - 1])
  }

  ghost predicate RuleServed(m: map<string, int>, endpoints: seq<Endpoint>, p: Rule) {
    Print(p.id) in m && ServesTarget(endpoints, p, m[Print(p.id)])
  }

  /** Every active rule has a port, and the configuration last written serves it there. */
  ghost predicate AllServed(s: Site) {
    forall i :: 0 <= i < |s.db.rules| && Active(s.db.rules[i]) ==> RuleServed(s.db.realmPorts, s.endpoints, s.db.rules[i])
  }

  lemma RefreshedServes(s: Site)
    requires Ready(s.db) && Fits(s.db)
    ensures AllServed(Refreshed(s)) && Ready(Refreshed(s).db)
  {
    ApplyKeepsPorts(s.db);
    var s' := Refreshed(s);
    forall i | 0 <= i < |s'.db.rules| && Active(s'.db.rules[i]) ensures RuleServed(s'.db.realmPorts, s'.endpoints, s'.db.rules[i]) {
      AppliedPortIsServed(s.db, i);
    }
  }

  lemma DialKeepsServed(s: Site, p: Rule)
    requires Ready(s.db) && p.id >= 1 && AllServed(s)
    ensures AllServed(After(s, DialFor(p)))
  {
    AssignKeepsPorts(s.db.realmPorts, p.id);
    hide Print, ServesTarget, PortsOk;
  }

  /** The parts of a rule that an endpoint depends on. */
  predicate SameService(p: Rule, q: Rule) {
    p.id == q.id && p.target == q.target && p.tcp == q.tcp && p.udp == q.udp && p.enabled == q.enabled
  }

  ghost predicate SameServices(rules: seq<Rule>, rules': seq<Rule>) {
    |rules| == |rules'| && forall i :: 0 <= i < |rules| ==> SameService(rules[i], rules'[i])
  }

  lemma RefusedEditKeepsServices(db: DB, id: int, owner: int, q: RuleReq)
    requires !OnEditRule(db, id, owner, q).ok
    ensures SameServices(db.rules, OnEditRule(db, id, owner, q).db.rules)
  {
    var i := RuleIdx(db.rules, id);
    if i < |db.rules| {
      EditRuleRefused(db, db.rules[i], owner, q);
    }
  }

  lemma ResetsKeepServices(db: DB, id: int)
    ensures SameServices(db.rules, ResetUser(db, id).rules) && SameServices(db.rules, ResetGroup(db, id).rules)
  {
  }

  /** A request that is not followed by a configuration run changes nothing an endpoint depends on. */
  lemma NoRunNoChange(db: DB, r: Request)
    requires !(Applies(r) && Handle(db, r).ok)
    ensures SameServices(db.rules, Handle(db, r).db.rules) && Handle(db, r).db.realmPorts == db.realmPorts
  {
    hide RangesFit, UserIdx, NameIdx, GroupIdx;
    match r
    case EditRule(id, owner, q) => RefusedEditKeepsServices(db, id, owner, q);
    case ResetUserTotals(id) => ResetsKeepServices(db, id);
    case ResetGroupTotals(id) => ResetsKeepServices(db, id);
    case EditOwnRule(_, _, _) => RefusedChangesNothing(db, r);
    case _ =>
  }

  lemma SameServicesStayServed(s: Site, db: DB)
    requires AllServed(s) && SameServices(s.db.rules, db.rules) && db.realmPorts == s.db.realmPorts
    ensures AllServed(s.(db := db))
  {
    hide Print;
    forall i | 0 <= i < |db.rules| && Active(db.rules[i]) ensures RuleServed(db.realmPorts, s.endpoints, db.rules[i]) {
      assert SameService(s.db.rules[i], db.rules[i]);
      assert RuleServed(s.db.realmPorts, s.endpoints, s.db.rules[i]);
    }
  }

  /** Whenever a configuration is written, old entries and active rules fit into the pool; only rules that were ever given
      an id are dialled. */
  ghost predicate Ordinary(s: Site, e: Event) {
    match e
    case Serve(r) => Applies(r) && Handle(s.db, r).ok ==> Fits(Handle(s.db, r).db)
    case Apply => Fits(s.db)
    case DialFor(p) => p.id >= 1
  }

  lemma StepKeepsServed(s: Site, e: Event)
    requires Ready(s.db) && AllServed(s) && Ordinary(s, e)
    ensures Ready(After(s, e).db) && AllServed(After(s, e))
  {
    match e
    case Serve(r) => ServeKeepsServed(s, r);
    case Apply => RefreshedServes(s);
    case DialFor(p) =>
      DialKeepsReady(s.db, p);
      DialKeepsServed(s, p);
  }

  lemma ServeKeepsServed(s: Site, r: Request)
    requires Ready(s.db) && AllServed(s) && Ordinary(s, Serve(r))
    ensures Ready(After(s, Serve(r)).db) && AllServed(After(s, Serve(r)))
  {
    RequestIsSound(s.db, r);
    RequestsRelease(s.db, r);
    var s' := s.(db := Handle(s.db, r).db);
    if Applies(r) && Handle(s.db, r).ok {
      hide Handle, AllServed;
      RefreshedServes(s');
    } else {
      NoRunNoChange(s.db, r);
      hide Handle, AllServed, SameServices;
      SameServicesStayServed(s, s'.db);
    }
  }

  /** Over any run of requests, configuration runs and dials, the configuration last written serves every active rule:
      also after dials for other rules, after refused edits, and after requests that do not write it anew. */
  lemma {:induction false} ActiveRulesStayServed(s: Site, es: seq<Event>)
    requires Ready(s.db) && AllServed(s) && forall n :: 0 <= n < |es| ==> Ordinary(Sites(s, es[..n]), es[n])
    ensures Ready(Sites(s, es).db) && AllServed(Sites(s, es))
  {
    if es != [] {
      hide Ready, AllServed, Ordinary, After;
      var pre, e := es[..|es| - 1], es[|es| - 1];
      forall n | 0 <= n < |pre| ensures Ordinary(Sites(s, pre[..n]), pre[n]) {
        assert pre[..n] == es[..n];
      }
      ActiveRulesStayServed(s, pre);
      assert Ordinary(Sites(s, es[..|pre|]), es[|pre|]);
      StepKeepsServed(Sites(s, pre), e);
    }
  }

  /** So at any moment of such a run, dialling an active rule allocates nothing and reaches its target: in direct mode
      straight, else through the one endpoint that listens on its port. */
  lemma DialsReachTheTarget(s: Site, es: seq<Event>, i: nat)
    requires Ready(s.db) && AllServed(s) && forall n :: 0 <= n < |es| ==> Ordinary(Sites(s, es[..n]), es[n])
    requires i < |Sites(s, es).db.rules| && Active(Sites(s, es).db.rules[i])
    ensures var now := Sites(s, es);
            var (a, db) := Dial(now.db, now.db.rules[i]);
            && db == now.db
            && if now.db.settings.mode == Mode.Direct then a == Straight(now.db.rules[i].target)
               else a.Internal? && ServesTarget(now.endpoints, now.db.rules[i], a.port)
  {
    ActiveRulesStayServed(s, es);
    var now := Sites(s, es);
    assert RuleServed(now.db.realmPorts, now.endpoints, now.db.rules[i]);
    hide Print;
    if now.db.settings.mode != Mode.Direct { DialOf(now.db, now.db.rules[i]); }
  }
}
