/** Rules over their life: batches against single posts, staying inside the owner's ranges, free numbers. */
module RuleLife {
  import opened Stores
  import opened Registry
  import opened Soundness
  import opened Answers
  import opened Samples

  // ---------- a batch is its lines posted one by one ----------

  /** Posts the lines one after the other; the flag says whether every one was accepted. */
  function Singles(db: DB, me: int, qs: seq<RuleReq>): Reply {
    if qs == [] then Reply(db, true)
    else
      var before := Singles(db, me, qs[..|qs| - 1]);
      var last := OnAddOwnRule(before.db, me, qs[|qs| - 1]);
      Reply(last.db, before.ok && last.ok)
  }

  /** The database with every rule from index `k` on switched on. */
  function SwitchedOn(db: DB, k: nat): (r: DB)
    ensures r == db.(rules := r.rules) && |r.rules| == |db.rules|
    ensures forall i :: 0 <= i < |db.rules| ==> r.rules[i] == if i < k then db.rules[i] else db.rules[i].(enabled := true)
  {
    db.(rules := seq(|db.rules|, i requires 0 <= i < |db.rules| =>
      if i < k then db.rules[i] else db.rules[i].(enabled := true)))
  }

  /** All lines accepted so far: same rules, same ids, and the next line is judged alike. */
  lemma {:induction false} SinglesAreABatch(db: DB, me: int, qs: seq<RuleReq>)
    requires UserByID(db.users, me).Some?
    ensures var ranges := UserByID(db.users, me).value.ranges;
            && (Singles(db, me, qs).ok <==> BatchFits(db.rules, ranges, qs))
            && Singles(db, me, qs).db.users == db.users
            && (Singles(db, me, qs).ok ==> Singles(db, me, qs).db == SwitchedOn(AppendRules(db, me, qs), |db.rules|))
            && |AppendRules(db, me, qs).rules| == |db.rules| + |qs| && AppendRules(db, me, qs).users == db.users
  {
    var ranges := UserByID(db.users, me).value.ranges;
    if qs == [] {
      assert SwitchedOn(db, |db.rules|).rules == db.rules;
    } else {
      var pre, q := qs[..|qs| - 1], qs[|qs| - 1];
      SinglesAreABatch(db, me, pre);
      FitsOneMore(db.rules, ranges, pre, q);
      assert qs == pre + [q];
      if BatchFits(db.rules, ranges, pre) {
        NextSingle(db, me, pre, q);
      }
    }
  }

  lemma NextSingle(db: DB, me: int, pre: seq<RuleReq>, q: RuleReq)
    requires |AppendRules(db, me, pre).rules| == |db.rules| + |pre|
    ensures var batch := AppendRules(db, me, pre);
            var mid := SwitchedOn(batch, |db.rules|);
            && (ValidPortNum(mid.rules, q.port)
                <==> ValidPortNum(db.rules, q.port) && forall j :: 0 <= j < |pre| ==> pre[j].port != q.port)
            && NewRule(mid, me, q, true) == SwitchedOn(NewRule(batch, me, q, q.enabled), |db.rules|)
  {
    var batch := AppendRules(db, me, pre);
    AppendedPorts(db, me, pre);
    NextLineIsJudgedAlike(db.rules, pre, batch.rules, SwitchedOn(batch, |db.rules|).rules, q.port);
    NextLineIsStoredAlike(batch, |db.rules|, me, q);
  }

  lemma NextLineIsStoredAlike(batch: DB, k: nat, me: int, q: RuleReq)
    requires k <= |batch.rules|
    ensures NewRule(SwitchedOn(batch, k), me, q, true) == SwitchedOn(NewRule(batch, me, q, q.enabled), k)
  {
  }

  lemma NextLineIsJudgedAlike(rules: seq<Rule>, pre: seq<RuleReq>, batch: seq<Rule>, mid: seq<Rule>, port: int)
    requires |batch| == |rules| + |pre| && |mid| == |batch|
    requires forall i :: 0 <= i < |rules| ==> batch[i] == rules[i]
    requires forall j :: 0 <= j < |pre| ==> batch[|rules| + j].port == pre[j].port
    requires forall i :: 0 <= i < |mid| ==> mid[i].port == batch[i].port
    ensures ValidPortNum(mid, port) <==> ValidPortNum(rules, port) && forall j :: 0 <= j < |pre| ==> pre[j].port != port
  {
    SamePortsUsed(mid, batch, port);
    PortUsedLater(rules, pre, batch, port);
  }

  lemma FitsOneMore(rules: seq<Rule>, ranges: seq<PortRange>, pre: seq<RuleReq>, q: RuleReq)
    ensures BatchFits(rules, ranges, pre + [q])
       <==> BatchFits(rules, ranges, pre) && ValidPortNum(rules, q.port)
            && (forall j :: 0 <= j < |pre| ==> pre[j].port != q.port) && GoodRuleReq(ranges, q)
  {
    var all := pre + [q];
    assert forall i :: 0 <= i < |pre| ==> all[i] == pre[i];
    if BatchFits(rules, ranges, all) {
      assert all[|pre|] == q;
    }
  }

  lemma SamePortsUsed(a: seq<Rule>, b: seq<Rule>, port: int)
    requires |a| == |b| && forall i :: 0 <= i < |a| ==> a[i].port == b[i].port
    ensures ValidPortNum(a, port) <==> ValidPortNum(b, port)
  {
  }

  lemma PortUsedLater(rules: seq<Rule>, qs: seq<RuleReq>, later: seq<Rule>, port: int)
    requires |later| == |rules| + |qs|
    requires forall i :: 0 <= i < |rules| ==> later[i] == rules[i]
    requires forall j :: 0 <= j < |qs| ==> later[|rules| + j].port == qs[j].port
    ensures ValidPortNum(later, port) <==> ValidPortNum(rules, port) && forall j :: 0 <= j < |qs| ==> qs[j].port != port
  {
    var i, k := PortIdx(rules, port), PortIdx(later, port);
    if i < |rules| { assert later[i].port == port; }
    if k < |later| && k >= |rules| { assert qs[k - |rules|].port == port; }
    if j :| 0 <= j < |qs| && qs[j].port == port { assert later[|rules| + j].port == port; }
  }

  /** A batch of 1 to 200 lines is accepted exactly when posting its lines one by one would accept every one, and then
      leaves the same database except that single posts switch each rule on. A refused batch changes nothing. */
  lemma BatchIsSingles(db: DB, me: int, qs: seq<RuleReq>)
    ensures OnAddOwnRules(db, me, qs).ok <==> 1 <= |qs| <= 200 && Singles(db, me, qs).ok
    ensures OnAddOwnRules(db, me, qs).ok ==>
              Singles(db, me, qs).db == SwitchedOn(OnAddOwnRules(db, me, qs).db, |db.rules|)
    ensures !OnAddOwnRules(db, me, qs).ok ==> OnAddOwnRules(db, me, qs).db == db
  {
    if UserByID(db.users, me).Some? {
      SinglesAreABatch(db, me, qs);
    } else {
      StrangersPostNothing(db, me, qs);
    }
  }

  lemma {:induction false} StrangersPostNothing(db: DB, me: int, qs: seq<RuleReq>)
    requires UserByID(db.users, me).None?
    ensures Singles(db, me, qs).db == db && (Singles(db, me, qs).ok <==> qs == [])
  {
    if qs != [] { StrangersPostNothing(db, me, qs[..|qs| - 1]); }
  }

  // ---------- rules inside their owner's ranges ----------

  ghost predicate Inside(db: DB, p: Rule) {
    var u := UserByID(db.users, p.user);
    u.Some? && InRange(u.value.ranges, p.port)
  }

  ghost predicate InOwnRanges(db: DB) {
    forall i :: 0 <= i < |db.rules| ==> Inside(db, db.rules[i])
  }

  /** Every user whose ranges matter to some rule still has them. */
  ghost predicate SameRanges(db: DB, db': DB, id: int) {
    && UserByID(db.users, id).Some? && UserByID(db'.users, id).Some?
    && UserByID(db.users, id).value.ranges == UserByID(db'.users, id).value.ranges
  }

  /** A user update that leaves ids and ranges alone leaves every lookup's ranges alone. */
  lemma SameRangesAfter(db: DB, db': DB)
    requires |db.users| == |db'.users|
    requires forall i :: 0 <= i < |db.users| ==> db.users[i].id == db'.users[i].id && db.users[i].ranges == db'.users[i].ranges
    ensures forall id :: UserByID(db.users, id).Some? ==> SameRanges(db, db', id)
  {
  }

  lemma AppendedUserLater(db: DB, u: User, id: int)
    requires UserByID(db.users, id).Some?
    ensures SameRanges(db, db.(users := db.users + [u]), id)
  {
    var i, j := UserIdx(db.users, id), UserIdx(db.users + [u], id);
    assert (db.users + [u])[i].id == id;
    assert i == j;
  }

  /** Requests that never move a rule out of its owner's ranges: all but the two administrator edits. */
  predicate KeepsRanges(r: Request) {
    !r.EditUser? && !r.EditRule?
  }

  lemma DropKeepsRanges(db: DB, ids: set<int>)
    requires InOwnRanges(db)
    ensures InOwnRanges(DropRules(db, ids))
  {
  }

  lemma NewRuleKeepsRanges(db: DB, owner: int, q: RuleReq, enabled: bool)
    requires InOwnRanges(db) && UserByID(db.users, owner).Some? && InRange(UserByID(db.users, owner).value.ranges, q.port)
    ensures InOwnRanges(NewRule(db, owner, q, enabled))
  {
  }

  lemma {:induction false} BatchKeepsRanges(db: DB, owner: int, qs: seq<RuleReq>)
    requires InOwnRanges(db) && UserByID(db.users, owner).Some?
    requires forall i :: 0 <= i < |qs| ==> InRange(UserByID(db.users, owner).value.ranges, qs[i].port)
    ensures InOwnRanges(AppendRules(db, owner, qs)) && AppendRules(db, owner, qs).users == db.users
  {
    if qs != [] {
      BatchKeepsRanges(db, owner, qs[..|qs| - 1]);
      NewRuleKeepsRanges(AppendRules(db, owner, qs[..|qs| - 1]), owner, qs[|qs| - 1], qs[|qs| - 1].enabled);
    }
  }

  lemma OwnEditKeepsRanges(db: DB, me: int, id: int, q: RuleReq)
    requires InOwnRanges(db)
    ensures InOwnRanges(OnEditOwnRule(db, me, id, q).db)
  {
  }

  lemma TotalsKeepRanges(db: DB, db': DB)
    requires SameButTotals(db, db') && InOwnRanges(db)
    ensures InOwnRanges(db')
  {
  }

  lemma ResetsKeepRanges(db: DB, id: int)
    requires InOwnRanges(db)
    ensures InOwnRanges(ResetUser(db, id)) && InOwnRanges(ResetGroup(db, id))
  {
    ResetUserKeeps(db, id);
    ResetGroupKeeps(db, id);
    TotalsKeepRanges(db, ResetUser(db, id));
    TotalsKeepRanges(db, ResetGroup(db, id));
  }

  lemma RegisterKeepsRanges(db: DB, name: string, password: string)
    requires Started(db) && InOwnRanges(db)
    ensures InOwnRanges(OnRegister(db, name, password).db)
  {
    hide UserIdx, NameIdx, ValidUsername, InOwnRanges, Started;
    var db' := OnRegister(db, name, password).db;
    if OnRegister(db, name, password).ok {
      NewUserKeepsRanges(db, db', db'.users[|db.users|]);
    }
  }

  lemma CreateUserKeepsRanges(db: DB, q: UserReq)
    requires Started(db) && InOwnRanges(db)
    ensures InOwnRanges(OnCreateUser(db, q).db)
  {
    hide UserIdx, NameIdx, ValidUsername, RangesFit, InOwnRanges, Started;
    var db' := OnCreateUser(db, q).db;
    if OnCreateUser(db, q).ok {
      NewUserKeepsRanges(db, db', db'.users[|db.users|]);
    }
  }

  lemma SetPasswordKeepsRanges(db: DB, id: int, password: string)
    requires Started(db) && InOwnRanges(db)
    ensures InOwnRanges(OnSetPassword(db, id, password).db)
  {
    hide UserIdx;
    var db' := OnSetPassword(db, id, password).db;
    SameRangesAfter(db, db');
    assert forall i :: 0 <= i < |db.rules| ==> Inside(db, db.rules[i]) && SameRanges(db, db', db.rules[i].user);
  }

  lemma DeletedUserKeepsRanges(db: DB, id: int, me: int)
    requires Started(db) && InOwnRanges(db)
    ensures InOwnRanges(OnDeleteUser(db, id, me).db)
  {
    var db' := OnDeleteUser(db, id, me).db;
    forall k | 0 <= k < |db'.rules| ensures Inside(db', db'.rules[k]) {
      assert db'.rules[k] in db.rules;
      if OnDeleteUser(db, id, me).ok {
        UserAfterRemove(db, id, db'.rules[k].user);
      }
    }
  }

  lemma NewUserKeepsRanges(db: DB, db': DB, u: User)
    requires Started(db) && InOwnRanges(db) && db'.users == db.users + [u] && db'.rules == db.rules
    ensures InOwnRanges(db')
  {
    forall k | 0 <= k < |db'.rules| ensures Inside(db', db'.rules[k]) {
      assert Inside(db, db.rules[k]);
      AppendedUserLater(db, u, db.rules[k].user);
    }
  }

  lemma UntouchedKeepsRanges(db: DB, db': DB)
    requires InOwnRanges(db) && db'.rules == db.rules && db'.users == db.users
    ensures InOwnRanges(db')
  {
  }

  lemma CreateKeepsRanges(db: DB, owner: int, q: RuleReq)
    requires InOwnRanges(db)
    ensures InOwnRanges(OnCreateRule(db, owner, q).db) && InOwnRanges(OnAddOwnRule(db, owner, q).db)
  {
  }

  lemma AddOwnKeepsRanges(db: DB, me: int, qs: seq<RuleReq>)
    requires InOwnRanges(db)
    ensures InOwnRanges(OnAddOwnRules(db, me, qs).db)
  {
    if OnAddOwnRules(db, me, qs).ok {
      BatchKeepsRanges(db, me, qs);
    }
  }

  lemma DeletesKeepRanges(db: DB, me: int, id: int, ids: seq<int>)
    requires InOwnRanges(db)
    ensures InOwnRanges(OnDeleteRule(db, id).db) && InOwnRanges(OnDeleteOwnRule(db, me, id).db)
    ensures InOwnRanges(OnDeleteOwnRules(db, me, ids).db)
  {
    DropKeepsRanges(db, {id});
    DropKeepsRanges(db, set i | 0 <= i < |ids| :: ids[i]);
  }

  lemma GroupsKeepRanges(db: DB, id: int, q: GroupReq, s: Settings)
    requires InOwnRanges(db)
    ensures InOwnRanges(OnCreateGroup(db, q).db) && InOwnRanges(OnEditGroup(db, id, q).db)
    ensures InOwnRanges(OnDeleteGroup(db, id).db) && InOwnRanges(OnEditSettings(db, s).db)
  {
    UntouchedKeepsRanges(db, OnCreateGroup(db, q).db);
    UntouchedKeepsRanges(db, OnEditGroup(db, id, q).db);
    UntouchedKeepsRanges(db, OnDeleteGroup(db, id).db);
    UntouchedKeepsRanges(db, OnEditSettings(db, s).db);
  }

  /** Any request but the two administrator edits keeps every rule inside its owner's ranges. */
  lemma RequestKeepsRanges(db: DB, r: Request)
    requires Started(db) && InOwnRanges(db) && KeepsRanges(r)
    ensures InOwnRanges(Handle(db, r).db)
  {
    hide OnRegister, OnCreateUser, OnEditUser, OnDeleteUser, OnSetPassword, OnCreateGroup, OnEditGroup, OnDeleteGroup;
    hide OnCreateRule, OnEditRule, OnDeleteRule, OnEditSettings;
    hide OnAddOwnRule, OnAddOwnRules, OnEditOwnRule, OnDeleteOwnRule, OnDeleteOwnRules, ResetUser, ResetGroup;
    hide InOwnRanges, Started;
    match r
    case Register(name, password) => RegisterKeepsRanges(db, name, password);
    case CreateUser(q) => CreateUserKeepsRanges(db, q);
    case DeleteUser(id, me) => DeletedUserKeepsRanges(db, id, me);
    case SetPassword(id, password) => SetPasswordKeepsRanges(db, id, password);
    case ResetUserTotals(id) => ResetsKeepRanges(db, id);
    case ResetGroupTotals(id) => ResetsKeepRanges(db, id);
    case CreateGroup(q) => GroupsKeepRanges(db, 0, q, db.settings);
    case EditGroup(id, q) => GroupsKeepRanges(db, id, q, db.settings);
    case DeleteGroup(id) => GroupsKeepRanges(db, id, GroupReq("", 0, 0, false), db.settings);
    case EditSettings(s) => GroupsKeepRanges(db, 0, GroupReq("", 0, 0, false), s);
    case CreateRule(owner, q) => CreateKeepsRanges(db, owner, q);
    case AddOwnRule(me, q) => CreateKeepsRanges(db, me, q);
    case AddOwnRules(me, qs) => AddOwnKeepsRanges(db, me, qs);
    case EditOwnRule(me, id, q) => OwnEditKeepsRanges(db, me, id, q);
    case DeleteRule(id) => DeletesKeepRanges(db, 0, id, []);
    case DeleteOwnRule(me, id) => DeletesKeepRanges(db, me, id, []);
    case DeleteOwnRules(me, ids) => DeletesKeepRanges(db, me, 0, ids);
  }

  /** An edit of a user keeps the property exactly when one of its checks refuses, or the new ranges still hold the
      numbers of the user's rules. */
  lemma EditUserKeepsRanges(db: DB, i: nat, q: UserReq)
    requires Started(db) && InOwnRanges(db) && i < |db.users|
    ensures InOwnRanges(OnEditUser(db, db.users[i].id, q).db)
       <==> !UserEditOk(db, db.users[i], q)
            || forall k :: 0 <= k < |db.rules| && db.rules[k].user == db.users[i].id ==> InRange(q.ranges, db.rules[k].port)
  {
    var u := db.users[i];
    assert UserIdx(db.users, u.id) == i;
    var db' := OnEditUser(db, u.id, q).db;
    WrittenMembership(db, u, q);
    forall k | 0 <= k < |db.rules|
      ensures Inside(db', db.rules[k])
         <==> (UserEditOk(db, u, q) && db.rules[k].user == u.id ==> InRange(q.ranges, db.rules[k].port))
    {
      assert Inside(db, db.rules[k]);
      SameUserIds(db.users, db'.users);
      var j, j' := UserIdx(db.users, db.rules[k].user), UserIdx(db'.users, db.rules[k].user);
      assert j == j' by { assert db'.users[j].id == db.users[j].id; }
    }
  }

  /** An administrator's edit of rule `p` keeps the property exactly when it writes no new number, or hands the rule to
      an owner that was checked, or the number happens to lie in the old owner's ranges. */
  lemma EditRuleKeepsRanges(db: DB, i: nat, owner: int, q: RuleReq)
    requires Started(db) && InOwnRanges(db) && i < |db.rules|
    ensures InOwnRanges(OnEditRule(db, db.rules[i].id, owner, q).db)
       <==> !WritesNumber(db, db.rules[i], q) || HandsOver(db, db.rules[i], owner, q)
            || InRange(UserByID(db.users, db.rules[i].user).value.ranges, q.port)
  {
    var p := db.rules[i];
    assert RuleIdx(db.rules, p.id) == i;
    var db' := OnEditRule(db, p.id, owner, q).db;
    forall k | 0 <= k < |db.rules| ensures Inside(db, db.rules[k]) {
    }
    WrittenPlace(db, p, owner, q);
    if InOwnRanges(db') {
      assert Inside(db', db'.rules[i]);
    } else {
      var k :| 0 <= k < |db'.rules| && !Inside(db', db'.rules[k]);
      assert k == i;
    }
  }

  /** Both edits do break it: ranges taken away under a rule, and a number outside them. */
  lemma EditsCanLeaveRulesOutside() returns (db: DB, q: UserReq, p: RuleReq)
    ensures Started(db) && InOwnRanges(db)
    ensures OnEditUser(db, 2, q).ok && !InOwnRanges(OnEditUser(db, 2, q).db)
    ensures OnEditRule(db, 4, 0, p).ok && !InOwnRanges(OnEditRule(db, 4, 0, p).db)
  {
    db := Sample(0, 0, 0);
    q, p := AliceEdit(0), NumberEdit(5000);
    SampleIsStarted(0, 0, 0);
    SampleLookups(0, 0, 0);
    assert Alice(0).ranges[0].start <= 1000 <= Alice(0).ranges[0].end;
    assert Bob(0).ranges[0].start <= 2000 <= Bob(0).ranges[0].end;
    assert Inside(db, db.rules[0]) && Inside(db, db.rules[1]);
    EditUserAccepted(db, db.users[0], q);
    EditUserKeepsRanges(db, 0, q);
    EditRuleAccepted(db, db.rules[0], 0, p);
    EditRuleKeepsRanges(db, 0, 0, p);
    assert !InRange(q.ranges, db.rules[0].port);
    assert !InRange(Alice(0).ranges, 5000);
  }

  // ---------- a number never passes from one rule to another in one request ----------

  ghost predicate NoHandover(db: DB, db': DB) {
    forall p, p' :: p in db.rules && p' in db'.rules && p.port == p'.port ==> p.id == p'.id
  }

  /** Old rules keep their numbers, and whatever is new has a number that was free. */
  ghost predicate OldOrFree(db: DB, db': DB) {
    forall k :: 0 <= k < |db'.rules| ==>
      || ValidPortNum(db.rules, db'.rules[k].port)
      || exists i :: 0 <= i < |db.rules| && db.rules[i].id == db'.rules[k].id && db.rules[i].port == db'.rules[k].port
  }

  lemma OldOrFreeSuffices(db: DB, db': DB)
    requires Sound(db) && OldOrFree(db, db')
    ensures NoHandover(db, db')
  {
  }

  lemma KeptRulesAreOld(db: DB, db': DB)
    requires forall p :: p in db'.rules ==> p in db.rules
    ensures OldOrFree(db, db')
  {
    forall k | 0 <= k < |db'.rules|
      ensures exists i :: 0 <= i < |db.rules| && db.rules[i].id == db'.rules[k].id && db.rules[i].port == db'.rules[k].port
    {
      assert db'.rules[k] in db.rules;
    }
  }

  lemma SetRuleIsOldOrFree(db: DB, i: nat, p: Rule)
    requires i < |db.rules| && p.id == db.rules[i].id && (p.port == db.rules[i].port || ValidPortNum(db.rules, p.port))
    ensures OldOrFree(db, db.(rules := db.rules[i := p]))
  {
  }

  lemma BatchIsOldOrFree(db: DB, me: int, qs: seq<RuleReq>)
    requires forall j :: 0 <= j < |qs| ==> ValidPortNum(db.rules, qs[j].port)
    ensures OldOrFree(db, AppendRules(db, me, qs))
  {
  }

  lemma EditIsOldOrFree(db: DB, id: int, owner: int, q: RuleReq)
    ensures OldOrFree(db, OnEditRule(db, id, owner, q).db)
  {
    var i := RuleIdx(db.rules, id);
    if i < |db.rules| {
      WrittenPlace(db, db.rules[i], owner, q);
      SetRuleIsOldOrFree(db, i, EditedRule(db, db.rules[i], owner, q).0);
    } else {
      KeptRulesAreOld(db, db);
    }
  }

  lemma OwnEditIsOldOrFree(db: DB, me: int, id: int, q: RuleReq)
    ensures OldOrFree(db, OnEditOwnRule(db, me, id, q).db)
  {
  }

  lemma OneNewIsOldOrFree(db: DB, owner: int, q: RuleReq, enabled: bool)
    requires ValidPortNum(db.rules, q.port)
    ensures OldOrFree(db, NewRule(db, owner, q, enabled))
  {
  }

  lemma ResetsAreOldOrFree(db: DB, id: int)
    ensures OldOrFree(db, ResetUser(db, id)) && OldOrFree(db, ResetGroup(db, id)) && OldOrFree(db, db)
  {
  }

  lemma AddsAreOldOrFree(db: DB, owner: int, q: RuleReq, qs: seq<RuleReq>)
    ensures OldOrFree(db, OnCreateRule(db, owner, q).db) && OldOrFree(db, OnAddOwnRule(db, owner, q).db)
    ensures OldOrFree(db, OnAddOwnRules(db, owner, qs).db)
  {
    KeptRulesAreOld(db, db);
    if ValidPortNum(db.rules, q.port) {
      OneNewIsOldOrFree(db, owner, q, q.enabled);
      OneNewIsOldOrFree(db, owner, q, true);
    }
    if OnAddOwnRules(db, owner, qs).ok {
      BatchIsOldOrFree(db, owner, qs);
    }
    hide OldOrFree, NewRule, AppendRules, ValidPortNum, BatchFits, GoodRuleReq, UserIdx;
  }

  lemma DropsAreOldOrFree(db: DB, me: int, id: int, ids: seq<int>)
    ensures OldOrFree(db, OnDeleteUser(db, id, me).db) && OldOrFree(db, OnDeleteRule(db, id).db)
    ensures OldOrFree(db, OnDeleteOwnRule(db, me, id).db) && OldOrFree(db, OnDeleteOwnRules(db, me, ids).db)
  {
    hide OldOrFree, UserIdx, RuleIdx;
    KeptRulesAreOld(db, OnDeleteUser(db, id, me).db);
    KeptRulesAreOld(db, OnDeleteRule(db, id).db);
    KeptRulesAreOld(db, OnDeleteOwnRule(db, me, id).db);
    KeptRulesAreOld(db, OnDeleteOwnRules(db, me, ids).db);
  }

  lemma RulesUntouched(db: DB, db': DB)
    requires db'.rules == db.rules
    ensures OldOrFree(db, db')
  {
    KeptRulesAreOld(db, db');
  }

  lemma AccountsAreOldOrFree(db: DB, id: int, name: string, password: string, q: UserReq)
    ensures OldOrFree(db, OnRegister(db, name, password).db) && OldOrFree(db, OnCreateUser(db, q).db)
    ensures OldOrFree(db, OnEditUser(db, id, q).db) && OldOrFree(db, OnSetPassword(db, id, password).db)
  {
    hide OldOrFree, RangesFit, UserIdx, NameIdx, GroupIdx, EditedUser, ValidUsername;
    RulesUntouched(db, OnRegister(db, name, password).db);
    RulesUntouched(db, OnCreateUser(db, q).db);
    RulesUntouched(db, OnEditUser(db, id, q).db);
    RulesUntouched(db, OnSetPassword(db, id, password).db);
  }

  lemma GroupsAreOldOrFree(db: DB, id: int, q: GroupReq, s: Settings)
    ensures OldOrFree(db, OnCreateGroup(db, q).db) && OldOrFree(db, OnEditGroup(db, id, q).db)
    ensures OldOrFree(db, OnDeleteGroup(db, id).db) && OldOrFree(db, OnEditSettings(db, s).db)
  {
    hide OldOrFree, GroupIdx;
    RulesUntouched(db, OnCreateGroup(db, q).db);
    RulesUntouched(db, OnEditGroup(db, id, q).db);
    RulesUntouched(db, OnDeleteGroup(db, id).db);
    RulesUntouched(db, OnEditSettings(db, s).db);
  }

  lemma EachIsOldOrFree(db: DB, r: Request)
    ensures OldOrFree(db, Handle(db, r).db)
  {
    hide OnRegister, OnCreateUser, OnEditUser, OnDeleteUser, OnSetPassword, OnCreateGroup, OnEditGroup, OnDeleteGroup;
    hide OnCreateRule, OnEditRule, OnDeleteRule, OnEditSettings;
    hide OnAddOwnRule, OnAddOwnRules, OnEditOwnRule, OnDeleteOwnRule, OnDeleteOwnRules, ResetUser, ResetGroup;
    hide OldOrFree;
    match r
    case Register(name, password) => AccountsAreOldOrFree(db, 0, name, password, AliceEdit(0));
    case CreateUser(q) => AccountsAreOldOrFree(db, 0, "", "", q);
    case EditUser(id, q) => AccountsAreOldOrFree(db, id, "", "", q);
    case SetPassword(id, password) => AccountsAreOldOrFree(db, id, "", password, AliceEdit(0));
    case CreateGroup(q) => GroupsAreOldOrFree(db, 0, q, db.settings);
    case EditGroup(id, q) => GroupsAreOldOrFree(db, id, q, db.settings);
    case DeleteGroup(id) => GroupsAreOldOrFree(db, id, GroupReq("", 0, 0, false), db.settings);
    case EditSettings(s) => GroupsAreOldOrFree(db, 0, GroupReq("", 0, 0, false), s);
    case EditRule(id, owner, q) => EditIsOldOrFree(db, id, owner, q);
    case EditOwnRule(me, id, q) => OwnEditIsOldOrFree(db, me, id, q);
    case CreateRule(owner, q) => AddsAreOldOrFree(db, owner, q, []);
    case AddOwnRule(me, q) => AddsAreOldOrFree(db, me, q, []);
    case AddOwnRules(me, qs) => AddsAreOldOrFree(db, me, NumberEdit(0), qs);
    case ResetUserTotals(id) => ResetsAreOldOrFree(db, id);
    case ResetGroupTotals(id) => ResetsAreOldOrFree(db, id);
    case DeleteUser(id, me) => DropsAreOldOrFree(db, me, id, []);
    case DeleteRule(id) => DropsAreOldOrFree(db, 0, id, []);
    case DeleteOwnRule(me, id) => DropsAreOldOrFree(db, me, id, []);
    case DeleteOwnRules(me, ids) => DropsAreOldOrFree(db, me, 0, ids);
  }

  /** No single request passes a number from one rule to another. */
  lemma RequestHandsNothingOver(db: DB, r: Request)
    requires Started(db)
    ensures NoHandover(db, Handle(db, r).db)
  {
    EachIsOldOrFree(db, r);
    hide Handle;
    OldOrFreeSuffices(db, Handle(db, r).db);
  }

  // ---------- free numbers ----------

  const SUGGESTIONS := 50

  /** The first `limit` numbers from `start` to `end` that are not in `used`. */
  function FreeIn(used: set<int>, start: int, end: int, limit: nat): seq<int>
    decreases end - start + 1
  {
    if start > end || limit == 0 then []
    else if start in used then FreeIn(used, start + 1, end, limit)
    else [start] + FreeIn(used, start + 1, end, limit - 1)
  }

  function Free(used: set<int>, ranges: seq<PortRange>): seq<int> {
    if ranges == [] then []
    else
      var r := ranges[|ranges| - 1];
      Free(used, ranges[..|ranges| - 1]) + FreeIn(used, r.start, r.end, SUGGESTIONS)
  }

  /** What the list for one range is: increasing, free, and missing a free number only when full and past its end. */
  ghost predicate IsLowestFree(r: seq<int>, used: set<int>, start: int, end: int, limit: nat) {
    && |r| <= limit
    && (forall i :: 0 <= i < |r| ==> start <= r[i] <= end && r[i] !in used)
    && (forall i, j :: 0 <= i < j < |r| ==> r[i] < r[j])
    && (forall x :: start <= x <= end && x !in used && x !in r ==> |r| == limit && forall i :: 0 <= i < |r| ==> r[i] < x)
  }

  lemma {:induction false} LowestFree(used: set<int>, start: int, end: int, limit: nat)
    ensures IsLowestFree(FreeIn(used, start, end, limit), used, start, end, limit)
    decreases end - start + 1
  {
    if start <= end && limit > 0 {
      if start in used {
        LowestFree(used, start + 1, end, limit);
      } else {
        LowestFree(used, start + 1, end, limit - 1);
        WithLowest(FreeIn(used, start + 1, end, limit - 1), used, start, end, limit);
      }
    }
  }

  lemma WithLowest(rest: seq<int>, used: set<int>, start: int, end: int, limit: nat)
    requires start <= end && start !in used && limit > 0 && IsLowestFree(rest, used, start + 1, end, limit - 1)
    ensures IsLowestFree([start] + rest, used, start, end, limit)
  {
  }

  /** One list after the other. */
  function Flat(blocks: seq<seq<int>>): seq<int> {
    if blocks == [] then [] else blocks[0] + Flat(blocks[1..])
  }

  lemma {:induction false} FlatOfOneMore(blocks: seq<seq<int>>, b: seq<int>)
    ensures Flat(blocks + [b]) == Flat(blocks) + b
  {
    if blocks == [] {
      assert Flat([b][1..]) == [];
    } else {
      assert (blocks + [b])[1..] == blocks[1..] + [b];
      FlatOfOneMore(blocks[1..], b);
    }
  }

  /** Every range is suggested from, in order, each with its own lowest free numbers. */
  lemma {:induction false} EveryRangeIsSuggested(used: set<int>, ranges: seq<PortRange>) returns (blocks: seq<seq<int>>)
    ensures |blocks| == |ranges| && Free(used, ranges) == Flat(blocks)
    ensures forall i :: 0 <= i < |ranges| ==> IsLowestFree(blocks[i], used, ranges[i].start, ranges[i].end, SUGGESTIONS)
  {
    hide IsLowestFree;
    if ranges == [] {
      blocks := [];
    } else {
      var n := |ranges| - 1;
      blocks := EveryRangeIsSuggested(used, ranges[..n]);
      LowestFree(used, ranges[n].start, ranges[n].end, SUGGESTIONS);
      FlatOfOneMore(blocks, FreeIn(used, ranges[n].start, ranges[n].end, SUGGESTIONS));
      blocks := blocks + [FreeIn(used, ranges[n].start, ranges[n].end, SUGGESTIONS)];
    }
  }

  function PortsOf(rules: seq<Rule>, user: int): set<int> {
    set i | 0 <= i < |rules| && rules[i].user == user :: rules[i].port
  }

  /** The suggestion loops of the rule page. */
  method SuggestPorts(own: seq<Rule>, ranges: seq<PortRange>) returns (free: seq<int>)
    ensures free == Free(set i | 0 <= i < |own| :: own[i].port, ranges)
  {
    var used: set<int> := {};
    var i := 0;
    while i < |own|
      invariant 0 <= i <= |own| && used == set j | 0 <= j < i :: own[j].port
    {
      used := used + {own[i].port};
      i := i + 1;
    }
    free := [];
    i := 0;
    while i < |ranges|
      invariant 0 <= i <= |ranges| && free == Free(used, ranges[..i])
    {
      var rg := ranges[i];
      var cnt, port := 0, rg.start;
      ghost var before := free;
      while port <= rg.end && cnt < SUGGESTIONS
        invariant 0 <= cnt <= SUGGESTIONS
        invariant free + FreeIn(used, port, rg.end, SUGGESTIONS - cnt) == before + FreeIn(used, rg.start, rg.end, SUGGESTIONS)
        decreases rg.end - port
      {
        if port !in used {
          free := free + [port];
          cnt := cnt + 1;
        }
        port := port + 1;
      }
      assert ranges[..i + 1][..i] == ranges[..i];
      i := i + 1;
    }
    assert ranges[..|ranges|] == ranges;
  }

  lemma {:induction false} FreeIsInRange(used: set<int>, ranges: seq<PortRange>, port: int)
    requires port in Free(used, ranges)
    ensures InRange(ranges, port) && port !in used
  {
    var n := |ranges| - 1;
    var r := ranges[n];
    if port in Free(used, ranges[..n]) {
      FreeIsInRange(used, ranges[..n], port);
      var i :| 0 <= i < n && ranges[..n][i].start <= port <= ranges[..n][i].end;
      assert ranges[i].start <= port <= ranges[i].end;
    } else {
      LowestFree(used, r.start, r.end, SUGGESTIONS);
      assert ranges[n].start <= port <= ranges[n].end;
    }
  }

  ghost predicate Suggested(db: DB, u: User, port: int) {
    port in Free(PortsOf(db.rules, u.id), u.ranges)
  }

  /** The number tests of a post by `u`. */
  ghost predicate Postable(db: DB, u: User, port: int) {
    ValidPortNum(db.rules, port) && InRange(u.ranges, port)
  }

  /** A suggested number passes both checks of a post exactly when no other user's rule holds it. */
  lemma SuggestionIsAccepted(db: DB, i: nat, port: int)
    requires Started(db) && i < |db.users| && Suggested(db, db.users[i], port)
    ensures Postable(db, db.users[i], port)
       <==> forall k :: 0 <= k < |db.rules| && db.rules[k].user != db.users[i].id ==> db.rules[k].port != port
  {
    var u := db.users[i];
    FreeIsInRange(PortsOf(db.rules, u.id), u.ranges, port);
    var x :| 0 <= x < |u.ranges| && u.ranges[x].start <= port <= u.ranges[x].end;
    assert ValidRange(u.ranges[x]);
    forall k | 0 <= k < |db.rules| && db.rules[k].user == u.id ensures db.rules[k].port != port {
      assert db.rules[k].port in PortsOf(db.rules, u.id);
    }
  }

  lemma RangesAreExclusive(db: DB, i: nat, j: nat, port: int)
    requires Sound(db) && i < |db.users| && j < |db.users| && i != j && InRange(db.users[i].ranges, port)
    ensures !InRange(db.users[j].ranges, port)
  {
  }

  /** While every rule is inside its owner's ranges, every suggestion is accepted: nobody else can hold the number. */
  lemma SuggestionsWork(db: DB, i: nat, port: int)
    requires Started(db) && InOwnRanges(db) && i < |db.users| && Suggested(db, db.users[i], port)
    ensures Postable(db, db.users[i], port)
  {
    var u := db.users[i];
    FreeIsInRange(PortsOf(db.rules, u.id), u.ranges, port);
    forall k | 0 <= k < |db.rules| && db.rules[k].user != u.id ensures db.rules[k].port != port {
      assert Inside(db, db.rules[k]);
      RangesAreExclusive(db, i, UserIdx(db.users, db.rules[k].user), port);
    }
    SuggestionIsAccepted(db, i, port);
  }

  /** Over any run without the two administrator edits, suggestions keep working. */
  lemma {:induction false} RunKeepsSuggestions(db: DB, rs: seq<Request>)
    requires Started(db) && InOwnRanges(db) && forall i :: 0 <= i < |rs| ==> KeepsRanges(rs[i])
    ensures InOwnRanges(After(db, rs))
    ensures var d := After(db, rs);
            forall i, port :: 0 <= i < |d.users| && Suggested(d, d.users[i], port) ==> Postable(d, d.users[i], port)
  {
    RunIsSound(db, rs);
    if rs != [] {
      var pre := rs[..|rs| - 1];
      RunKeepsSuggestions(db, pre);
      RunIsSound(db, pre);
      RequestKeepsRanges(After(db, pre), rs[|rs| - 1]);
    }
    var d := After(db, rs);
    forall i, port | 0 <= i < |d.users| && Suggested(d, d.users[i], port) ensures Postable(d, d.users[i], port) {
      SuggestionsWork(d, i, port);
    }
  }
}
