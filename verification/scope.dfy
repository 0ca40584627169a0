/** What each request may touch: a user's own requests nothing that belongs to others, an administrator's only what it names
    (the handlers of api.go). */
module Scope {
  import opened Stores
  import opened Detection
  import opened Decimal
  import opened Registry
  import opened Soundness
  import opened Answers
  import opened RealmRuns

  // ---------- what a request is about ----------

  predicate TouchesRule(db: DB, r: Request, p: Rule) {
    match r
    case EditRule(id, _, _) => p.id == id
    case DeleteRule(id) => p.id == id
    case DeleteUser(id, _) => p.user == id
    case ResetUserTotals(id) => p.user == id
    case ResetGroupTotals(id) => UserByID(db.users, p.user).Some? && UserByID(db.users, p.user).value.group == id
    case EditOwnRule(me, id, _) => p.id == id && p.user == me
    case DeleteOwnRule(me, id) => p.id == id && p.user == me
    case DeleteOwnRules(me, ids) => p.id in ids && p.user == me
    case _ => false
  }

  predicate TouchesUser(r: Request, u: User) {
    match r
    case EditUser(id, _) => u.id == id
    case DeleteUser(id, me) => u.id == id && id != me
    case SetPassword(id, _) => u.id == id
    case ResetUserTotals(id) => u.id == id
    case ResetGroupTotals(id) => u.group == id
    case _ => false
  }

  predicate TouchesGroup(r: Request, g: Group) {
    match r
    case EditGroup(id, _) => g.id == id
    case DeleteGroup(id) => g.id == id
    case ResetGroupTotals(id) => g.id == id
    case _ => false
  }

  /** The rule as posted, for this owner. */
  predicate IsPost(p: Rule, owner: int, q: RuleReq, enabled: bool) {
    && p.user == owner && p.port == q.port && p.tcp == q.tcp && p.udp == q.udp && p.target == q.target
    && p.allowed == q.allowed && p.enabled == enabled && p.total == 0
  }

  /** Does the request post this rule? A single post of a user's own is always enabled. */
  ghost predicate Posts(r: Request, p: Rule) {
    match r
    case CreateRule(owner, q) => IsPost(p, owner, q, q.enabled)
    case AddOwnRule(me, q) => IsPost(p, me, q, true)
    case AddOwnRules(me, qs) => exists k :: 0 <= k < |qs| && IsPost(p, me, qs[k], qs[k].enabled)
    case _ => false
  }

  /** What the request makes of a rule it is about, if it changes it at all. */
  predicate Becomes(r: Request, q: Rule, p: Rule) {
    match r
    case ResetUserTotals(_) => p == q.(total := 0)
    case ResetGroupTotals(_) => p == q.(total := 0)
    case EditRule(_, _, _) => p.id == q.id && p.total == q.total
    case EditOwnRule(_, _, x) =>
      p == q.(tcp := x.tcp, udp := x.udp, enabled := x.enabled, target := if x.target == "" then q.target else x.target,
              allowed := if ValidAllowed(x.allowed) then x.allowed else q.allowed)
    case _ => false
  }

  // ---------- rules ----------

  /** Rules the request is not about stay as they are. */
  ghost predicate OthersStay(db: DB, r: Request, rules: seq<Rule>) {
    forall p :: p in db.rules && !TouchesRule(db, r, p) ==> p in rules
  }

  /** Whatever rule was not there before comes from one the request is about, or was posted by it. */
  ghost predicate NothingElse(db: DB, r: Request, rules: seq<Rule>) {
    forall p :: p in rules && p !in db.rules ==>
      || (exists q :: q in db.rules && TouchesRule(db, r, q) && Becomes(r, q, p))
      || (p.id > db.seqNo && Posts(r, p))
  }

  lemma NewRuleIsPosted(db: DB, r: Request, owner: int, q: RuleReq, enabled: bool)
    requires Posts(r, Rule(db.seqNo + 1, owner, q.port, q.tcp, q.udp, q.target, q.allowed, enabled, 0))
    ensures OthersStay(db, r, NewRule(db, owner, q, enabled).rules) && NothingElse(db, r, NewRule(db, owner, q, enabled).rules)
  {
    hide TouchesRule, Posts;
  }

  lemma {:induction false} BatchRules(db: DB, me: int, qs: seq<RuleReq>)
    ensures var d := AppendRules(db, me, qs);
            && d.seqNo >= db.seqNo && d.users == db.users && d.groups == db.groups && d.settings == db.settings
            && d.realmPorts == db.realmPorts && d.daily == db.daily
            && (forall p :: p in db.rules ==> p in d.rules)
            && (forall p :: p in d.rules && p !in db.rules ==> p.id > db.seqNo && Posts(AddOwnRules(me, qs), p))
  {
    if qs != [] {
      var n := |qs| - 1;
      BatchRules(db, me, qs[..n]);
      var d := AppendRules(db, me, qs);
      forall p | p in d.rules && p !in db.rules ensures p.id > db.seqNo && Posts(AddOwnRules(me, qs), p) {
        if p in AppendRules(db, me, qs[..n]).rules {
          var k :| 0 <= k < n && IsPost(p, me, qs[..n][k], qs[..n][k].enabled);
          assert IsPost(p, me, qs[k], qs[k].enabled);
        } else {
          assert IsPost(p, me, qs[n], qs[n].enabled);
        }
      }
    }
  }

  lemma AddsAreScoped(db: DB, r: Request)
    requires r.CreateRule? || r.AddOwnRule? || r.AddOwnRules?
    ensures OthersStay(db, r, Handle(db, r).db.rules) && NothingElse(db, r, Handle(db, r).db.rules)
  {
    hide ValidPortNum, GoodRuleReq, BatchFits, UserByID;
    match r
    case CreateRule(owner, q) => NewRuleIsPosted(db, r, owner, q, q.enabled);
    case AddOwnRule(me, q) => NewRuleIsPosted(db, r, me, q, true);
    case AddOwnRules(me, qs) => BatchRules(db, me, qs);
  }

  lemma SetRuleIsScoped(db: DB, r: Request, i: nat, v: Rule)
    requires i < |db.rules| && TouchesRule(db, r, db.rules[i])
    requires v == db.rules[i] || Becomes(r, db.rules[i], v)
    ensures OthersStay(db, r, db.rules[i := v]) && NothingElse(db, r, db.rules[i := v])
  {
    hide TouchesRule, Posts, Becomes;
    assert db.rules[i] in db.rules;
    var rules := db.rules[i := v];
    forall p | p in db.rules && !TouchesRule(db, r, p) ensures p in rules {
      var j :| 0 <= j < |db.rules| && db.rules[j] == p;
      assert rules[j] == p;
    }
    forall p | p in rules && p !in db.rules ensures p == v {
      var j :| 0 <= j < |rules| && rules[j] == p;
    }
  }

  lemma OwnEditBecomes(p: Rule, r: Request)
    requires r.EditOwnRule?
    ensures var (v, ok) := EditedBody(p, r.rule); if ok then Becomes(r, p, v) else v == p
  {
  }

  lemma EditsAreScoped(db: DB, r: Request)
    requires r.EditRule? || r.EditOwnRule?
    ensures OthersStay(db, r, Handle(db, r).db.rules) && NothingElse(db, r, Handle(db, r).db.rules)
  {
    var i := RuleIdx(db.rules, r.id);
    if i < |db.rules| {
      if r.EditRule? {
        WrittenPlace(db, db.rules[i], r.owner, r.rule);
        hide EditedRule, OthersStay, NothingElse;
        SetRuleIsScoped(db, r, i, EditedRule(db, db.rules[i], r.owner, r.rule).0);
      } else if db.rules[i].user == r.me {
        OwnEditBecomes(db.rules[i], r);
        hide EditedBody, OthersStay, NothingElse, Becomes;
        SetRuleIsScoped(db, r, i, EditedBody(db.rules[i], r.rule).0);
        FewerRulesAreScoped(db, r, db.rules);
      }
    }
  }

  lemma FewerRulesAreScoped(db: DB, r: Request, rules: seq<Rule>)
    requires forall p :: p in rules ==> p in db.rules
    requires forall p :: p in db.rules && !TouchesRule(db, r, p) ==> p in rules
    ensures OthersStay(db, r, rules) && NothingElse(db, r, rules)
  {
  }

  /** The caller's rule of this number, if it has one. */
  ghost predicate HasRule(rules: seq<Rule>, id: int, user: int) {
    exists p :: p in rules && p.id == id && p.user == user
  }

  lemma OwnsMeaning(db: DB, me: int, id: int)
    requires Sound(db)
    ensures Owns(db.rules, me, id) <==> HasRule(db.rules, id, me)
    ensures Owns(db.rules, me, id) ==> forall p :: p in db.rules && p.id == id ==> p.user == me
  {
    var i := RuleIdx(db.rules, id);
    if i < |db.rules| {
      assert db.rules[i] in db.rules;
      forall p | p in db.rules && p.id == id ensures p == db.rules[i] {
        var j :| 0 <= j < |db.rules| && db.rules[j] == p;
      }
    }
  }

  lemma OwnDeletesAreScoped(db: DB, r: Request)
    requires Sound(db) && (r.DeleteOwnRule? || r.DeleteOwnRules?)
    ensures OthersStay(db, r, Handle(db, r).db.rules) && NothingElse(db, r, Handle(db, r).db.rules)
  {
    if r.DeleteOwnRule? {
      OwnsMeaning(db, r.me, r.id);
    } else {
      forall i | 0 <= i < |r.ids| && Owns(db.rules, r.me, r.ids[i])
        ensures forall p :: p in db.rules && p.id == r.ids[i] ==> p.user == r.me
      {
        OwnsMeaning(db, r.me, r.ids[i]);
      }
    }
    hide Sound, Owns, UserIdx, RuleIdx, KeysOf, OthersStay, NothingElse, Posts, Becomes;
    FewerRulesAreScoped(db, r, Handle(db, r).db.rules);
  }

  lemma DeletesAreScoped(db: DB, r: Request)
    requires Sound(db) && (r.DeleteRule? || r.DeleteOwnRule? || r.DeleteOwnRules? || r.DeleteUser?)
    ensures OthersStay(db, r, Handle(db, r).db.rules) && NothingElse(db, r, Handle(db, r).db.rules)
  {
    hide Sound, Owns, UserIdx, RuleIdx, KeysOf, OthersStay, NothingElse;
    if r.DeleteOwnRule? || r.DeleteOwnRules? {
      OwnDeletesAreScoped(db, r);
    } else {
      FewerRulesAreScoped(db, r, Handle(db, r).db.rules);
    }
  }

  lemma ClearsAreScoped(db: DB, r: Request, rules: seq<Rule>)
    requires r.ResetUserTotals? || r.ResetGroupTotals?
    requires |rules| == |db.rules|
    requires forall i :: 0 <= i < |rules| ==>
               rules[i] == if TouchesRule(db, r, db.rules[i]) then db.rules[i].(total := 0) else db.rules[i]
    ensures OthersStay(db, r, rules) && NothingElse(db, r, rules)
  {
    hide TouchesRule, Posts;
    forall p | p in db.rules && !TouchesRule(db, r, p) ensures p in rules {
      var j :| 0 <= j < |db.rules| && db.rules[j] == p;
      assert rules[j] == p;
    }
    forall p | p in rules && p !in db.rules ensures exists q :: q in db.rules && TouchesRule(db, r, q) && Becomes(r, q, p) {
      var j :| 0 <= j < |rules| && rules[j] == p;
      assert db.rules[j] in db.rules;
    }
  }

  lemma OwnerInMeaning(db: DB, p: Rule, group: int)
    requires Sound(db)
    ensures OwnerIn(db.users, p, group) <==> UserByID(db.users, p.user).Some? && UserByID(db.users, p.user).value.group == group
  {
  }

  lemma ResetsAreScoped(db: DB, r: Request)
    requires Sound(db)
    requires r.ResetUserTotals? || r.ResetGroupTotals?
    ensures OthersStay(db, r, Handle(db, r).db.rules) && NothingElse(db, r, Handle(db, r).db.rules)
  {
    hide OthersStay, NothingElse, UserIdx, GroupIdx;
    if Handle(db, r).ok {
      if r.ResetGroupTotals? {
        forall p | p in db.rules ensures OwnerIn(db.users, p, r.id) <==> TouchesRule(db, r, p) {
          OwnerInMeaning(db, p, r.id);
        }
      }
      hide Sound, OwnerIn;
      ClearsAreScoped(db, r, Handle(db, r).db.rules);
    } else {
      FewerRulesAreScoped(db, r, db.rules);
    }
  }

  lemma OtherRequestsLeaveRules(db: DB, r: Request)
    requires r.Register? || r.CreateUser? || r.EditUser? || r.SetPassword? || r.CreateGroup? || r.EditGroup? || r.DeleteGroup?
             || r.EditSettings?
    ensures Handle(db, r).db.rules == db.rules
  {
    hide RangesFit, ValidUsername, UserIdx, NameIdx, GroupIdx, EditedUser;
  }

  /** Every request, refused ones included: no rule but those it is about is changed or removed, and no rule is added but
      those it posts. */
  lemma RulesAreScoped(db: DB, r: Request)
    requires Sound(db)
    ensures OthersStay(db, r, Handle(db, r).db.rules) && NothingElse(db, r, Handle(db, r).db.rules)
  {
    hide Handle, Sound, OthersStay, NothingElse;
    if r.CreateRule? || r.AddOwnRule? || r.AddOwnRules? {
      AddsAreScoped(db, r);
    } else if r.EditRule? || r.EditOwnRule? {
      EditsAreScoped(db, r);
    } else if r.DeleteRule? || r.DeleteOwnRule? || r.DeleteOwnRules? || r.DeleteUser? {
      DeletesAreScoped(db, r);
    } else if r.ResetUserTotals? || r.ResetGroupTotals? {
      ResetsAreScoped(db, r);
    } else {
      OtherRequestsLeaveRules(db, r);
      FewerRulesAreScoped(db, r, db.rules);
    }
  }

  /** What a reset is about has no bytes left. */
  lemma ResetsClear(db: DB, r: Request)
    requires Sound(db) && (r.ResetUserTotals? || r.ResetGroupTotals?) && Handle(db, r).ok
    ensures var db' := Handle(db, r).db;
            && (forall p :: p in db'.rules && TouchesRule(db, r, p) ==> p.total == 0)
            && (forall u :: u in db'.users && TouchesUser(r, u) ==> u.total == 0)
            && (forall g :: g in db'.groups && TouchesGroup(r, g) ==> g.total == 0)
  {
    var db' := Handle(db, r).db;
    if r.ResetGroupTotals? {
      forall p | p in db'.rules && TouchesRule(db, r, p) ensures p.total == 0 { OwnerInMeaning(db, p, r.id); }
    } else {
      OneUserReset(db, r.id);
    }
    hide UserIdx, GroupIdx, Sound;
  }

  lemma OneUserReset(db: DB, id: int)
    requires Sound(db)
    ensures forall u :: u in ResetUser(db, id).users && u.id == id ==> u.total == 0
  {
  }

  /** What a removal names is gone. */
  lemma RemovedRulesAreGone(db: DB, r: Request, p: Rule)
    requires Sound(db) && Deletes(r) && Handle(db, r).ok && p in Handle(db, r).db.rules
    ensures !TouchesRule(db, r, p)
  {
    hide Sound, Owns, UserIdx, RuleIdx, KeysOf;
  }

  // ---------- users, groups, settings ----------

  /** A new account as the request describes it; whoever registers is a member of the default group without ranges. */
  predicate Joins(db: DB, r: Request, u: User) {
    match r
    case Register(name, password) =>
      && u.name == name && u.password == password && u.role == Member && u.group == db.settings.defaultGroup
      && u.ranges == [] && u.enabled && u.expireAt == 0
    case CreateUser(q) =>
      && u.name == q.name && u.password == q.password && u.group == q.group && u.ranges == q.ranges
      && u.role == (if q.role.OtherRole? then Member else q.role) && u.enabled == q.enabled && u.expireAt == q.expireAt
    case _ => false
  }

  /** What the request makes of an account it is about, if it changes it at all. */
  predicate BecomesUser(r: Request, v: User, u: User) {
    match r
    case SetPassword(_, password) => u == v.(password := password)
    case ResetUserTotals(_) => u == v.(total := 0)
    case ResetGroupTotals(_) => u == v.(total := 0)
    case EditUser(_, _) => u.id == v.id && u.total == v.total
    case _ => false
  }

  ghost predicate UsersStay(db: DB, r: Request, users: seq<User>) {
    && (forall u :: u in db.users && !TouchesUser(r, u) ==> u in users)
    && (forall u :: u in users && u !in db.users ==>
          || (exists v :: v in db.users && TouchesUser(r, v) && BecomesUser(r, v, u))
          || (u.id > db.seqNo && u.total == 0 && Joins(db, r, u)))
  }

  lemma SetUserIsScoped(db: DB, r: Request, i: nat, v: User)
    requires i < |db.users| && TouchesUser(r, db.users[i]) && BecomesUser(r, db.users[i], v)
    ensures UsersStay(db, r, db.users[i := v])
  {
    hide TouchesUser, Joins, BecomesUser;
    assert db.users[i] in db.users;
    var users := db.users[i := v];
    forall u | u in db.users && !TouchesUser(r, u) ensures u in users {
      var j :| 0 <= j < |db.users| && db.users[j] == u;
      assert users[j] == u;
    }
    forall u | u in users && u !in db.users ensures u == v {
      var j :| 0 <= j < |users| && users[j] == u;
    }
  }

  lemma ClearedUsersAreScoped(db: DB, r: Request, users: seq<User>)
    requires r.ResetGroupTotals?
    requires |users| == |db.users|
    requires forall i :: 0 <= i < |users| ==>
               users[i] == if TouchesUser(r, db.users[i]) then db.users[i].(total := 0) else db.users[i]
    ensures UsersStay(db, r, users)
  {
    hide TouchesUser, Joins;
    forall u | u in db.users && !TouchesUser(r, u) ensures u in users {
      var j :| 0 <= j < |db.users| && db.users[j] == u;
      assert users[j] == u;
    }
    forall u | u in users && u !in db.users ensures exists v :: v in db.users && TouchesUser(r, v) && BecomesUser(r, v, u) {
      var j :| 0 <= j < |users| && users[j] == u;
      assert db.users[j] in db.users;
    }
  }

  lemma FewerUsersAreScoped(db: DB, r: Request, users: seq<User>)
    requires forall u :: u in users ==> u in db.users
    requires forall u :: u in db.users && !TouchesUser(r, u) ==> u in users
    ensures UsersStay(db, r, users)
  {
  }

  lemma NewUsersAreScoped(db: DB, r: Request)
    requires r.Register? || r.CreateUser?
    ensures UsersStay(db, r, Handle(db, r).db.users)
  {
    hide RangesFit, ValidUsername, NameIdx, GroupIdx;
  }

  lemma EditedUsersAreScoped(db: DB, r: Request)
    requires r.EditUser? || r.SetPassword? || r.ResetUserTotals?
    ensures UsersStay(db, r, Handle(db, r).db.users)
  {
    hide RangesFit, ValidUsername, NameIdx, GroupIdx, UsersStay;
    var i := UserIdx(db.users, r.id);
    FewerUsersAreScoped(db, r, db.users);
    if i < |db.users| {
      if r.EditUser? { WrittenMembership(db, db.users[i], r.user); }
      hide EditedUser;
      if Handle(db, r).db.users != db.users { SetUserIsScoped(db, r, i, Handle(db, r).db.users[i]); }
    }
  }

  lemma OtherRequestsLeaveUsers(db: DB, r: Request)
    requires !r.Register? && !r.CreateUser? && !r.EditUser? && !r.SetPassword? && !r.ResetUserTotals? && !r.ResetGroupTotals?
             && !r.DeleteUser?
    ensures Handle(db, r).db.users == db.users
  {
    if r.AddOwnRules? { BatchRules(db, r.me, r.rules); }
    hide AppendRules, UserIdx, RuleIdx, GroupIdx, EditedRule, EditedBody, BatchFits, GoodRuleReq, ValidPortNum;
  }

  /** No account but the one the request is about is changed or removed, and none is added but the one it describes. */
  lemma UsersAreScoped(db: DB, r: Request)
    ensures UsersStay(db, r, Handle(db, r).db.users)
    ensures r.DeleteUser? && Handle(db, r).ok ==> forall u :: u in Handle(db, r).db.users ==> u.id != r.id
  {
    hide UsersStay, UserIdx, GroupIdx;
    if r.Register? || r.CreateUser? {
      NewUsersAreScoped(db, r);
    } else if r.EditUser? || r.SetPassword? || r.ResetUserTotals? {
      EditedUsersAreScoped(db, r);
    } else if r.ResetGroupTotals? {
      FewerUsersAreScoped(db, r, db.users);
      if Handle(db, r).ok { ClearedUsersAreScoped(db, r, Handle(db, r).db.users); }
    } else if r.DeleteUser? {
      FewerUsersAreScoped(db, r, Handle(db, r).db.users);
    } else {
      OtherRequestsLeaveUsers(db, r);
      hide Handle;
      FewerUsersAreScoped(db, r, db.users);
    }
  }

  /** An accepted new password is set, and nothing else of that account changes. */
  lemma PasswordIsSet(db: DB, id: int, password: string, u: User)
    requires Sound(db) && OnSetPassword(db, id, password).ok && u in db.users && u.id == id
    ensures u.(password := password) in OnSetPassword(db, id, password).db.users
  {
    var i := UserIdx(db.users, id);
    var j :| 0 <= j < |db.users| && db.users[j] == u;
    assert i == j;
    assert OnSetPassword(db, id, password).db.users[i] == u.(password := password);
  }

  predicate BecomesGroup(r: Request, h: Group, g: Group) {
    match r
    case EditGroup(_, q) => g == Group(h.id, if q.name == "" then h.name else q.name, q.mbps, q.quotaGB, q.enabled, h.total)
    case ResetGroupTotals(_) => g == h.(total := 0)
    case _ => false
  }

  ghost predicate GroupsStay(db: DB, r: Request, groups: seq<Group>) {
    && (forall g :: g in db.groups && !TouchesGroup(r, g) ==> g in groups)
    && (forall g :: g in groups && g !in db.groups ==>
          || (exists h :: h in db.groups && TouchesGroup(r, h) && BecomesGroup(r, h, g))
          || (r.CreateGroup? && g.id > db.seqNo
              && g == Group(g.id, r.group.name, r.group.mbps, r.group.quotaGB, r.group.enabled, 0)))
  }

  lemma EditedGroupIsScoped(db: DB, id: int, q: GroupReq)
    ensures GroupsStay(db, EditGroup(id, q), OnEditGroup(db, id, q).db.groups)
  {
    var groups := OnEditGroup(db, id, q).db.groups;
    var i := GroupIdx(db.groups, id);
    forall g | g in db.groups && g.id != id ensures g in groups {
      var j :| 0 <= j < |db.groups| && db.groups[j] == g;
      assert groups[j] == g;
    }
    forall g | g in groups && g !in db.groups ensures i < |db.groups| && g == groups[i] {
      var j :| 0 <= j < |groups| && groups[j] == g;
    }
    if i < |db.groups| { assert db.groups[i] in db.groups && BecomesGroup(EditGroup(id, q), db.groups[i], groups[i]); }
  }

  lemma ClearedGroupIsScoped(db: DB, id: int)
    ensures GroupsStay(db, ResetGroupTotals(id), Handle(db, ResetGroupTotals(id)).db.groups)
  {
    hide UserIdx, GroupIdx;
    var groups := Handle(db, ResetGroupTotals(id)).db.groups;
    forall g | g in db.groups && g.id != id ensures g in groups {
      var j :| 0 <= j < |db.groups| && db.groups[j] == g;
      assert groups[j] == g;
    }
    forall g | g in groups && g !in db.groups ensures exists h :: h in db.groups && h.id == id && g == h.(total := 0) {
      var j :| 0 <= j < |groups| && groups[j] == g;
      assert db.groups[j] in db.groups;
    }
  }

  lemma OtherRequestsLeaveGroups(db: DB, r: Request)
    requires !r.CreateGroup? && !r.EditGroup? && !r.DeleteGroup? && !r.ResetGroupTotals?
    ensures Handle(db, r).db.groups == db.groups
  {
    if r.AddOwnRules? { BatchRules(db, r.me, r.rules); }
    hide AppendRules, UserIdx, RuleIdx, GroupIdx, NameIdx, EditedUser, EditedRule, EditedBody, BatchFits, GoodRuleReq, ValidPortNum;
    hide RangesFit, ValidUsername;
  }

  /** The same for groups. */
  lemma GroupsAreScoped(db: DB, r: Request)
    ensures GroupsStay(db, r, Handle(db, r).db.groups)
    ensures r.DeleteGroup? && Handle(db, r).ok ==> forall g :: g in Handle(db, r).db.groups ==> g.id != r.id
  {
    if r.EditGroup? {
      EditedGroupIsScoped(db, r.id, r.group);
    } else if r.ResetGroupTotals? {
      ClearedGroupIsScoped(db, r.id);
    } else if !r.CreateGroup? && !r.DeleteGroup? {
      OtherRequestsLeaveGroups(db, r);
      hide Handle;
    }
    hide UserIdx, GroupIdx;
  }

  /** The settings change only by their own request, and the day totals by no request. */
  lemma SettingsAreScoped(db: DB, r: Request)
    ensures Handle(db, r).db.daily == db.daily && (!r.EditSettings? ==> Handle(db, r).db.settings == db.settings)
  {
    if r.AddOwnRules? { BatchRules(db, r.me, r.rules); }
    hide AppendRules, UserIdx, RuleIdx, GroupIdx, NameIdx, EditedUser, EditedRule, EditedBody, BatchFits, GoodRuleReq, ValidPortNum;
    hide RangesFit, ValidUsername;
  }

  /** Accepted settings are stored as asked, but for a record limit out of bounds. */
  lemma SettingsAreAsked(db: DB, s: Settings)
    ensures OnEditSettings(db, s).ok ==>
              var t := OnEditSettings(db, s).db.settings;
              t == s.(recordsLimit := t.recordsLimit) && 100 <= t.recordsLimit <= 20000
              && t.recordsLimit == if 100 <= s.recordsLimit <= 20000 then s.recordsLimit else 3000
  {
    hide GroupIdx;
  }

  // ---------- internal ports ----------

  /** No request gives a rule an internal port. */
  lemma PortsOnlyGo(db: DB, r: Request)
    ensures forall k :: k in Handle(db, r).db.realmPorts ==> k in db.realmPorts
  {
    if r.AddOwnRules? { BatchRules(db, r.me, r.rules); }
    hide AppendRules, UserIdx, RuleIdx, GroupIdx, NameIdx, EditedUser, EditedRule, EditedBody, BatchFits, GoodRuleReq, ValidPortNum;
    hide RangesFit, ValidUsername, Print;
  }

  ghost predicate SameEntry(m: map<string, int>, m': map<string, int>, id: int) {
    (Print(id) in m <==> Print(id) in m') && (Print(id) in m ==> m'[Print(id)] == m[Print(id)])
  }

  lemma StayingRuleKeepsEntry(db: DB, r: Request, p: Rule)
    requires Sound(db) && p in Handle(db, r).db.rules
    ensures SameEntry(db.realmPorts, Handle(db, r).db.realmPorts, p.id)
  {
    var db' := Handle(db, r).db;
    var i :| 0 <= i < |db'.rules| && db'.rules[i] == p;
    assert IdIn(db'.rules, p.id);
    hide Handle, Sound, Print;
    PortsOnlyGo(db, r);
    if Print(p.id) in db.realmPorts { RequestKeepsPort(db, r, p.id); }
  }

  // ---------- users' own requests ----------

  /** The user who asks, for the requests users make for themselves. */
  function Asker(r: Request): Option<int> {
    match r
    case AddOwnRule(me, _) => Some(me)
    case AddOwnRules(me, _) => Some(me)
    case EditOwnRule(me, _, _) => Some(me)
    case DeleteOwnRule(me, _) => Some(me)
    case DeleteOwnRules(me, _) => Some(me)
    case _ => None
  }

  /** A user's own request leaves every other user's rules and their internal ports as they are, adds, changes and removes
      only rules of the user, and touches nothing else in the database. */
  lemma OwnRequestsStayOwn(db: DB, r: Request, me: int)
    requires Sound(db) && Asker(r) == Some(me)
    ensures var db' := Handle(db, r).db;
            && (forall p: Rule :: p.user != me ==> (p in db'.rules <==> p in db.rules))
            && (forall p :: p in db.rules && p.user != me ==> SameEntry(db.realmPorts, db'.realmPorts, p.id))
            && db'.users == db.users && db'.groups == db.groups && db'.settings == db.settings && db'.daily == db.daily
  {
    hide Handle, Sound, Print;
    var db' := Handle(db, r).db;
    RulesAreScoped(db, r);
    OtherRequestsLeaveUsers(db, r);
    OtherRequestsLeaveGroups(db, r);
    SettingsAreScoped(db, r);
    forall p | p in db.rules && p.user != me ensures p in db'.rules && SameEntry(db.realmPorts, db'.realmPorts, p.id) {
      assert !TouchesRule(db, r, p);
      StayingRuleKeepsEntry(db, r, p);
    }
  }

  /** A request that names a rule is refused unless the rule is there and the caller's own; otherwise it is accepted, up to
      what else it asks for. */
  lemma OwnRequestAccepted(db: DB, me: int, id: int, ids: seq<int>, q: RuleReq)
    requires Sound(db)
    ensures OnDeleteOwnRule(db, me, id).ok <==> UserByID(db.users, me).Some? && HasRule(db.rules, id, me)
    ensures OnDeleteOwnRules(db, me, ids).ok
       <==> UserByID(db.users, me).Some? && 1 <= |ids| <= 200 && forall i :: 0 <= i < |ids| ==> HasRule(db.rules, ids[i], me)
    ensures OnEditOwnRule(db, me, id, q).ok
       <==> UserByID(db.users, me).Some? && HasRule(db.rules, id, me) && (q.tcp || q.udp) && (q.target == "" || q.targetOk)
  {
    OwnsMeaning(db, me, id);
    forall i | 0 <= i < |ids| ensures Owns(db.rules, me, ids[i]) <==> HasRule(db.rules, ids[i], me) {
      OwnsMeaning(db, me, ids[i]);
    }
    hide HasRule, Sound, UserIdx, RuleIdx, DropRules;
  }

  // ---------- runs of other users' requests ----------

  /** Somebody registers, or a user other than `owner` asks something for itself. */
  predicate ByOthers(r: Request, owner: int) {
    r.Register? || (Asker(r).Some? && Asker(r).value != owner)
  }

  lemma OthersLeaveRules(db: DB, r: Request, owner: int)
    requires Sound(db) && ByOthers(r, owner)
    ensures var db' := Handle(db, r).db;
            && (forall p: Rule :: p.user == owner ==> (p in db'.rules <==> p in db.rules))
            && (forall p :: p in db.rules && p.user == owner ==> SameEntry(db.realmPorts, db'.realmPorts, p.id))
  {
    hide Handle, Sound, Print;
    if r.Register? {
      OtherRequestsLeaveRules(db, r);
      forall p | p in db.rules ensures SameEntry(db.realmPorts, Handle(db, r).db.realmPorts, p.id) {
        StayingRuleKeepsEntry(db, r, p);
      }
    } else {
      OwnRequestsStayOwn(db, r, Asker(r).value);
    }
  }

  /** Whatever others register and ask for themselves, in any order: a user's rules are exactly what they were, and so are
      their internal ports. */
  lemma {:induction false} RunsLeaveOthersRules(db: DB, rs: seq<Request>, owner: int)
    requires Started(db) && forall n :: 0 <= n < |rs| ==> ByOthers(rs[n], owner)
    ensures Started(After(db, rs))
    ensures forall p: Rule :: p.user == owner ==> (p in After(db, rs).rules <==> p in db.rules)
    ensures forall p :: p in db.rules && p.user == owner ==> SameEntry(db.realmPorts, After(db, rs).realmPorts, p.id)
  {
    if rs != [] {
      var pre, r := rs[..|rs| - 1], rs[|rs| - 1];
      RunsLeaveOthersRules(db, pre, owner);
      RequestIsSound(After(db, pre), r);
      hide Handle, Print;
      OthersLeaveRules(After(db, pre), r, owner);
    }
  }

  /** Nobody gets more than a member's account without an administrator: over any such run the accounts that were there stay
      as they are, and new ones are members of the default group without ranges. */
  lemma {:induction false} RunsMakeOnlyMembers(db: DB, rs: seq<Request>)
    requires forall n :: 0 <= n < |rs| ==> rs[n].Register? || Asker(rs[n]).Some?
    ensures After(db, rs).settings == db.settings
    ensures forall u :: u in db.users ==> u in After(db, rs).users
    ensures forall u :: u in After(db, rs).users && u !in db.users ==>
              u.role == Member && u.group == db.settings.defaultGroup && u.ranges == []
  {
    if rs != [] {
      var pre, r := rs[..|rs| - 1], rs[|rs| - 1];
      RunsMakeOnlyMembers(db, pre);
      hide Handle;
      UsersAreScoped(After(db, pre), r);
      SettingsAreScoped(After(db, pre), r);
      if !r.Register? { OtherRequestsLeaveUsers(After(db, pre), r); }
    }
  }

  // ---------- which requests are accepted ----------

  ghost predicate HasUser(db: DB, id: int) { exists u :: u in db.users && u.id == id }

  ghost predicate HasGroup(db: DB, id: int) { exists g :: g in db.groups && g.id == id }

  ghost predicate NameIsFree(db: DB, name: string) { forall u :: u in db.users ==> u.name != name }

  /** A free number in a range of this user, with a protocol, a good target and a known setting. */
  ghost predicate Postable(db: DB, owner: int, q: RuleReq) {
    && 1 <= q.port <= 65535 && (forall p :: p in db.rules ==> p.port != q.port)
    && (exists u :: u in db.users && u.id == owner && exists r :: r in u.ranges && Holds(r, q.port))
    && (q.tcp || q.udp) && q.targetOk && ValidAllowed(q.allowed)
  }

  /** What each request needs, by what is in the tables. */
  ghost predicate Acceptable(db: DB, r: Request) {
    match r
    case Register(name, password) =>
      && db.settings.allowRegister && ValidUsername(name) && |password| >= 6 && NameIsFree(db, name)
      && HasGroup(db, db.settings.defaultGroup)
    case CreateUser(q) =>
      && ValidUsername(q.name) && |q.password| >= 6 && NameIsFree(db, q.name) && HasGroup(db, q.group)
      && RangesFit(db.users, q.ranges, 0)
    case EditUser(id, q) => exists u :: u in db.users && u.id == id && UserEditOk(db, u, q)
    case DeleteUser(id, me) => HasUser(db, id) && id != me
    case SetPassword(id, password) => HasUser(db, id) && |password| >= 6
    case ResetUserTotals(id) => HasUser(db, id)
    case CreateGroup(q) => q.name != ""
    case EditGroup(id, _) => HasGroup(db, id)
    case DeleteGroup(id) => HasGroup(db, id) && forall u :: u in db.users ==> u.group != id
    case ResetGroupTotals(id) => HasGroup(db, id)
    case CreateRule(owner, q) => Postable(db, owner, q)
    case EditRule(id, owner, q) => exists p :: p in db.rules && p.id == id && RuleEditOk(db, p, owner, q)
    case DeleteRule(id) => exists p :: p in db.rules && p.id == id
    case EditSettings(s) => (s.mode == Mode.Realm || s.mode == Mode.Direct) && (s.defaultGroup <= 0 || HasGroup(db, s.defaultGroup))
    case AddOwnRule(me, q) => Postable(db, me, q)
    case AddOwnRules(me, qs) =>
      && 1 <= |qs| <= 200 && (forall i :: 0 <= i < |qs| ==> Postable(db, me, qs[i]))
      && (forall i, j :: 0 <= i < j < |qs| ==> qs[i].port != qs[j].port)
    case EditOwnRule(me, id, q) =>
      HasUser(db, me) && HasRule(db.rules, id, me) && (q.tcp || q.udp) && (q.target == "" || q.targetOk)
    case DeleteOwnRule(me, id) => HasUser(db, me) && HasRule(db.rules, id, me)
    case DeleteOwnRules(me, ids) =>
      HasUser(db, me) && 1 <= |ids| <= 200 && forall i :: 0 <= i < |ids| ==> HasRule(db.rules, ids[i], me)
  }

  lemma UserLookup(db: DB, id: int)
    requires Sound(db)
    ensures UserByID(db.users, id).Some? <==> HasUser(db, id)
    ensures forall u :: u in db.users && u.id == id ==> UserByID(db.users, id) == Some(u)
  {
    var i := UserIdx(db.users, id);
    if i < |db.users| { assert db.users[i] in db.users; }
    forall u | u in db.users && u.id == id ensures i < |db.users| && u == db.users[i] {
      var j :| 0 <= j < |db.users| && db.users[j] == u;
    }
  }

  lemma GroupLookup(db: DB, id: int)
    ensures GroupByID(db.groups, id).Some? <==> HasGroup(db, id)
  {
    var i := GroupIdx(db.groups, id);
    if i < |db.groups| { assert db.groups[i] in db.groups; }
  }

  lemma NameLookup(db: DB, name: string)
    ensures UserByName(db.users, name).None? <==> NameIsFree(db, name)
  {
    var i := NameIdx(db.users, name);
    if i < |db.users| { assert db.users[i] in db.users; }
  }

  lemma RuleLookup(db: DB, id: int)
    requires Sound(db)
    ensures RuleByID(db.rules, id).Some? <==> exists p :: p in db.rules && p.id == id
    ensures forall p :: p in db.rules && p.id == id ==> RuleIdx(db.rules, id) < |db.rules| && db.rules[RuleIdx(db.rules, id)] == p
  {
    var i := RuleIdx(db.rules, id);
    if i < |db.rules| { assert db.rules[i] in db.rules; }
    forall p | p in db.rules && p.id == id ensures i < |db.rules| && p == db.rules[i] {
      var j :| 0 <= j < |db.rules| && db.rules[j] == p;
    }
  }

  lemma NumberLookup(db: DB, port: int)
    ensures ValidPortNum(db.rules, port) <==> 1 <= port <= 65535 && forall p :: p in db.rules ==> p.port != port
  {
    if exists i :: 0 <= i < |db.rules| && db.rules[i].port == port {
      var i :| 0 <= i < |db.rules| && db.rules[i].port == port;
      assert db.rules[i] in db.rules;
    }
  }

  lemma RangeLookup(ranges: seq<PortRange>, port: int)
    ensures InRange(ranges, port) <==> exists r :: r in ranges && Holds(r, port)
  {
    if InRange(ranges, port) {
      var i :| 0 <= i < |ranges| && ranges[i].start <= port <= ranges[i].end;
      assert Holds(ranges[i], port);
    }
  }

  /** The checks on one posted rule. */
  lemma PostLookup(db: DB, owner: int, q: RuleReq)
    requires Sound(db)
    ensures var u := UserByID(db.users, owner);
            Postable(db, owner, q) <==> ValidPortNum(db.rules, q.port) && u.Some? && GoodRuleReq(u.value.ranges, q)
  {
    UserLookup(db, owner);
    NumberLookup(db, q.port);
    hide Sound, ValidPortNum, InRange, UserIdx;
    var u := UserByID(db.users, owner);
    if u.Some? {
      assert u.value in db.users && u.value.id == owner by { UserIsThere(db, owner); }
      RangeLookup(u.value.ranges, q.port);
    }
  }

  lemma UserIsThere(db: DB, id: int)
    requires UserByID(db.users, id).Some?
    ensures UserByID(db.users, id).value in db.users && UserByID(db.users, id).value.id == id
  {
  }

  lemma AccountRequestAccepted(db: DB, r: Request)
    requires Sound(db)
    requires r.Register? || r.CreateUser? || r.EditUser? || r.DeleteUser? || r.SetPassword? || r.ResetUserTotals?
    ensures Handle(db, r).ok <==> Acceptable(db, r)
  {
    hide Sound, UserIdx, NameIdx, GroupIdx, RangesFit, ValidUsername, EditedUser, UserEditOk, HasGroup, NameIsFree;
    match r
    case Register(name, _) => NameLookup(db, name); GroupLookup(db, db.settings.defaultGroup);
    case CreateUser(q) => NameLookup(db, q.name); GroupLookup(db, q.group);
    case EditUser(id, q) =>
      UserLookup(db, id);
      var i := UserIdx(db.users, id);
      if i < |db.users| { EditUserAccepted(db, db.users[i], q); }
    case DeleteUser(id, _) => UserLookup(db, id);
    case SetPassword(id, _) => UserLookup(db, id);
    case ResetUserTotals(id) => UserLookup(db, id);
  }

  lemma GroupRequestAccepted(db: DB, r: Request)
    requires r.CreateGroup? || r.EditGroup? || r.DeleteGroup? || r.ResetGroupTotals? || r.EditSettings?
    ensures Handle(db, r).ok <==> Acceptable(db, r)
  {
    match r
    case EditGroup(id, _) => GroupLookup(db, id);
    case DeleteGroup(id) =>
      GroupLookup(db, id);
      assert HasMembers(db.users, id) <==> exists u :: u in db.users && u.group == id by { MembersMeaning(db, id); }
    case ResetGroupTotals(id) => GroupLookup(db, id);
    case EditSettings(s) => GroupLookup(db, s.defaultGroup);
    case CreateGroup(_) =>
    hide GroupIdx, HasGroup, HasMembers;
  }

  lemma MembersMeaning(db: DB, id: int)
    ensures HasMembers(db.users, id) <==> exists u :: u in db.users && u.group == id
  {
    if HasMembers(db.users, id) {
      var i :| 0 <= i < |db.users| && db.users[i].group == id;
      assert db.users[i] in db.users;
    }
  }

  lemma PostAccepted(db: DB, r: Request)
    requires Sound(db) && (r.CreateRule? || r.AddOwnRule?)
    ensures Handle(db, r).ok <==> Acceptable(db, r)
  {
    hide Sound, UserIdx, Postable, ValidPortNum, GoodRuleReq;
    match r
    case CreateRule(owner, q) => PostLookup(db, owner, q);
    case AddOwnRule(me, q) => PostLookup(db, me, q);
  }

  lemma BatchAccepted(db: DB, me: int, qs: seq<RuleReq>)
    requires Sound(db)
    ensures OnAddOwnRules(db, me, qs).ok <==> Acceptable(db, AddOwnRules(me, qs))
  {
    hide Sound, UserIdx, Postable, ValidPortNum, GoodRuleReq, AppendRules;
    forall i | 0 <= i < |qs|
      ensures var u := UserByID(db.users, me);
              Postable(db, me, qs[i]) <==> ValidPortNum(db.rules, qs[i].port) && u.Some? && GoodRuleReq(u.value.ranges, qs[i])
    {
      PostLookup(db, me, qs[i]);
    }
    if Acceptable(db, AddOwnRules(me, qs)) { assert Postable(db, me, qs[0]); }
  }

  lemma RuleRequestAccepted(db: DB, r: Request)
    requires Sound(db) && (r.EditRule? || r.DeleteRule?)
    ensures Handle(db, r).ok <==> Acceptable(db, r)
  {
    hide Sound, RuleIdx, EditedRule, RuleEditOk, DropRules;
    RuleLookup(db, r.id);
    if r.EditRule? {
      var i := RuleIdx(db.rules, r.id);
      if i < |db.rules| {
        assert db.rules[i] in db.rules;
        EditRuleAccepted(db, db.rules[i], r.owner, r.rule);
      }
    }
  }

  lemma BatchIs(db: DB, me: int, qs: seq<RuleReq>)
    ensures Handle(db, AddOwnRules(me, qs)) == OnAddOwnRules(db, me, qs)
  {
    hide OnAddOwnRules;
  }

  /** Every request is accepted if and only if what it needs is there. */
  lemma RequestAccepted(db: DB, r: Request)
    requires Sound(db)
    ensures Handle(db, r).ok <==> Acceptable(db, r)
  {
    if r.EditOwnRule? || r.DeleteOwnRule? || r.DeleteOwnRules? {
      UserLookup(db, r.me);
      OwnRequestAccepted(db, r.me, if r.DeleteOwnRules? then 0 else r.id, if r.DeleteOwnRules? then r.ids else [],
                         if r.EditOwnRule? then r.rule else RuleReq(0, false, false, "", false, Auto, false));
      hide OnEditOwnRule, OnDeleteOwnRule, OnDeleteOwnRules, HasRule, HasUser;
    } else {
      hide Handle, Acceptable, Sound;
      if r.CreateRule? || r.AddOwnRule? {
        PostAccepted(db, r);
      } else if r.AddOwnRules? {
        BatchAccepted(db, r.me, r.rules);
        BatchIs(db, r.me, r.rules);
      } else if r.EditRule? || r.DeleteRule? {
        RuleRequestAccepted(db, r);
      } else if r.CreateGroup? || r.EditGroup? || r.DeleteGroup? || r.ResetGroupTotals? || r.EditSettings? {
        GroupRequestAccepted(db, r);
      } else {
        AccountRequestAccepted(db, r);
      }
    }
  }
}
