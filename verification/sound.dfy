/** The invariant of the database, kept by every request, accepted or refused. */
module Soundness {
  import opened Stores
  import opened Detection
  import opened Registry

  // ---------- the parts of the invariant ----------

  ghost predicate UserIds(users: seq<User>, top: int) {
    && (forall i :: 0 <= i < |users| ==> 1 <= users[i].id <= top)
    && (forall i, j :: 0 <= i < j < |users| ==> users[i].id != users[j].id)
  }

  ghost predicate Names(users: seq<User>) {
    forall i, j :: 0 <= i < j < |users| ==> users[i].name != users[j].name
  }

  ghost predicate Apart(a: seq<PortRange>, b: seq<PortRange>) {
    forall i, j :: 0 <= i < |a| && 0 <= j < |b| ==> !Overlap(a[i], b[j])
  }

  ghost predicate RangesOk(rs: seq<PortRange>) {
    && (forall i :: 0 <= i < |rs| ==> ValidRange(rs[i]))
    && (forall i, j :: 0 <= i < j < |rs| ==> !Overlap(rs[i], rs[j]))
  }

  ghost predicate Ranges(users: seq<User>) {
    && (forall i :: 0 <= i < |users| ==> RangesOk(users[i].ranges))
    && (forall i, j :: 0 <= i < j < |users| ==> Apart(users[i].ranges, users[j].ranges))
  }

  ghost predicate GroupIds(groups: seq<Group>, top: int) {
    && (forall i :: 0 <= i < |groups| ==> 1 <= groups[i].id <= top)
    && (forall i, j :: 0 <= i < j < |groups| ==> groups[i].id != groups[j].id)
  }

  ghost predicate RuleIds(rules: seq<Rule>, top: int) {
    && (forall i :: 0 <= i < |rules| ==> 1 <= rules[i].id <= top)
    && (forall i, j :: 0 <= i < j < |rules| ==> rules[i].id != rules[j].id)
  }

  ghost predicate RulePorts(rules: seq<Rule>) {
    && (forall i :: 0 <= i < |rules| ==> 1 <= rules[i].port <= 65535)
    && (forall i, j :: 0 <= i < j < |rules| ==> rules[i].port != rules[j].port)
  }

  ghost predicate RuleBodies(rules: seq<Rule>) {
    forall i :: 0 <= i < |rules| ==> (rules[i].tcp || rules[i].udp) && ValidAllowed(rules[i].allowed)
  }

  /** Every user's group exists. */
  ghost predicate Members(users: seq<User>, groups: seq<Group>) {
    forall i :: 0 <= i < |users| ==> GroupByID(groups, users[i].group).Some?
  }

  /** Every rule's owner exists. */
  ghost predicate Owners(rules: seq<Rule>, users: seq<User>) {
    forall i :: 0 <= i < |rules| ==> UserByID(users, rules[i].user).Some?
  }

  ghost predicate Sound(db: DB) {
    && UserIds(db.users, db.seqNo) && Names(db.users) && Ranges(db.users) && Members(db.users, db.groups)
    && GroupIds(db.groups, db.seqNo)
    && RuleIds(db.rules, db.seqNo) && RulePorts(db.rules) && RuleBodies(db.rules) && Owners(db.rules, db.users)
  }

  // ---------- users ----------

  ghost predicate SoundUsers(users: seq<User>, top: int) {
    UserIds(users, top) && Names(users) && Ranges(users)
  }

  lemma FittingRangesAreOk(users: seq<User>, rs: seq<PortRange>, exclude: int)
    requires RangesFit(users, rs, exclude)
    ensures RangesOk(rs)
    ensures forall k :: 0 <= k < |users| && users[k].id != exclude ==> Apart(rs, users[k].ranges) && Apart(users[k].ranges, rs)
  {
  }

  lemma AppendUser(users: seq<User>, top: int, u: User)
    requires SoundUsers(users, top) && 0 <= top && u.id == top + 1
    requires UserByName(users, u.name).None? && RangesFit(users, u.ranges, 0)
    ensures SoundUsers(users + [u], top + 1)
  {
    FittingRangesAreOk(users, u.ranges, 0);
  }

  lemma ReplaceUser(users: seq<User>, top: int, i: nat, u: User)
    requires SoundUsers(users, top) && i < |users| && u.id == users[i].id
    requires u.name == users[i].name || !NameTaken(users, u.name, u.id)
    requires u.ranges == users[i].ranges || RangesFit(users, u.ranges, u.id)
    ensures SoundUsers(users[i := u], top)
  {
  }

  lemma {:induction false} RemoveUser(users: seq<User>, top: int, id: int)
    requires SoundUsers(users, top)
    ensures SoundUsers(UsersWithout(users, id), top)
  {
    if users != [] {
      var pre, u := users[..|users| - 1], users[|users| - 1];
      assert users == pre + [u];
      var kept := UsersWithout(pre, id);
      KeptUsersDiffer(pre, u, kept, top);
      RemoveUser(pre, top, id);
      OneMoreUser(kept, top, u);
    }
  }

  lemma KeptUsersDiffer(pre: seq<User>, u: User, kept: seq<User>, top: int)
    requires SoundUsers(pre + [u], top) && forall x :: x in kept ==> x in pre
    ensures forall i :: 0 <= i < |kept| ==> kept[i].id != u.id && kept[i].name != u.name && Apart(kept[i].ranges, u.ranges)
    ensures RangesOk(u.ranges) && 1 <= u.id <= top && SoundUsers(pre, top)
  {
    var all := pre + [u];
    assert all[|pre|] == u;
    assert forall k :: 0 <= k < |pre| ==> all[k] == pre[k];
    forall i | 0 <= i < |kept| ensures kept[i].id != u.id && kept[i].name != u.name && Apart(kept[i].ranges, u.ranges) {
      assert kept[i] in pre;
      var k :| 0 <= k < |pre| && pre[k] == kept[i];
    }
  }

  lemma OneMoreUser(kept: seq<User>, top: int, u: User)
    requires SoundUsers(kept, top) && 1 <= u.id <= top && RangesOk(u.ranges)
    requires forall i :: 0 <= i < |kept| ==> kept[i].id != u.id && kept[i].name != u.name && Apart(kept[i].ranges, u.ranges)
    ensures SoundUsers(kept + [u], top)
  {
  }

  lemma OneMoreRule(kept: seq<Rule>, top: int, p: Rule)
    requires SoundRules(kept, top) && 1 <= p.id <= top && 1 <= p.port <= 65535 && (p.tcp || p.udp) && ValidAllowed(p.allowed)
    requires forall i :: 0 <= i < |kept| ==> kept[i].id != p.id && kept[i].port != p.port
    ensures SoundRules(kept + [p], top)
  {
  }

  /** What an edit may have left in the record, at whichever check it stopped. */
  lemma WrittenUserIs(u: User, q: UserReq, nameOk: bool, groupOk: bool, rangesOk: bool)
    ensures var v := WriteUser(u, q, nameOk, groupOk, rangesOk).0;
            && v.id == u.id && v.total == u.total
            && (v.name == u.name || (v.name == q.name && nameOk))
            && (v.group == u.group || (v.group == q.group && groupOk))
            && (v.ranges == u.ranges || (v.ranges == q.ranges && rangesOk))
  {
  }

  lemma SetUserIsSound(db: DB, i: nat, u: User)
    requires Sound(db) && i < |db.users| && u.id == db.users[i].id
    requires u.name == db.users[i].name || !NameTaken(db.users, u.name, u.id)
    requires u.group == db.users[i].group || GroupByID(db.groups, u.group).Some?
    requires u.ranges == db.users[i].ranges || RangesFit(db.users, u.ranges, u.id)
    ensures Sound(db.(users := db.users[i := u]))
  {
    ReplaceUser(db.users, db.seqNo, i, u);
    SameUserIds(db.users, db.users[i := u]);
  }

  /** Who exists depends only on the ids. */
  lemma SameUserIds(users: seq<User>, users': seq<User>)
    requires |users| == |users'| && forall i :: 0 <= i < |users| ==> users[i].id == users'[i].id
    ensures forall id :: UserByID(users, id).Some? <==> UserByID(users', id).Some?
  {
  }

  lemma SameGroupIds(groups: seq<Group>, groups': seq<Group>)
    requires |groups| == |groups'| && forall i :: 0 <= i < |groups| ==> groups[i].id == groups'[i].id
    ensures forall id :: GroupByID(groups, id).Some? <==> GroupByID(groups', id).Some?
  {
  }

  lemma MoreUsers(users: seq<User>, u: User, id: int)
    ensures UserByID(users, id).Some? ==> UserByID(users + [u], id).Some?
  {
    var i := UserIdx(users, id);
    if i < |users| { assert (users + [u])[i].id == id; }
  }

  lemma MoreGroups(groups: seq<Group>, g: Group, id: int)
    ensures GroupByID(groups, id).Some? ==> GroupByID(groups + [g], id).Some?
  {
    var i := GroupIdx(groups, id);
    if i < |groups| { assert (groups + [g])[i].id == id; }
  }

  lemma HigherTop(users: seq<User>, groups: seq<Group>, rules: seq<Rule>, top: int)
    ensures UserIds(users, top) ==> UserIds(users, top + 1)
    ensures GroupIds(groups, top) ==> GroupIds(groups, top + 1)
    ensures RuleIds(rules, top) ==> RuleIds(rules, top + 1)
  {
  }

  lemma OneMoreMember(users: seq<User>, u: User, groups: seq<Group>, rules: seq<Rule>)
    requires Members(users, groups) && GroupByID(groups, u.group).Some? && Owners(rules, users)
    ensures Members(users + [u], groups) && Owners(rules, users + [u])
  {
    forall i | 0 <= i < |rules| ensures UserByID(users + [u], rules[i].user).Some? {
      MoreUsers(users, u, rules[i].user);
    }
  }

  lemma NewUserIsSound(db: DB, name: string, password: string, role: Role, group: int, enabled: bool, expireAt: int,
                       ranges: seq<PortRange>, note: string)
    requires Sound(db) && 0 <= db.seqNo
    requires UserByName(db.users, name).None? && GroupByID(db.groups, group).Some? && RangesFit(db.users, ranges, 0)
    ensures Sound(NewUser(db, name, password, role, group, enabled, expireAt, ranges, note))
  {
    hide UserIds, Names, Ranges, Members, GroupIds, RuleIds, RulePorts, RuleBodies, Owners, RangesFit, UserByName, GroupByID;
    var u := User(db.seqNo + 1, name, password, role, group, enabled, expireAt, ranges, note, 0);
    AppendUser(db.users, db.seqNo, u);
    OneMoreMember(db.users, u, db.groups, db.rules);
    HigherTop(db.users, db.groups, db.rules, db.seqNo);
  }

  lemma DeleteUserIsSound(db: DB, id: int, me: int)
    requires Sound(db)
    ensures Sound(OnDeleteUser(db, id, me).db)
  {
    var db' := OnDeleteUser(db, id, me).db;
    if db' != db {
      RemoveUser(db.users, db.seqNo, id);
      KeepRules(db.rules, db'.rules, db.seqNo, id);
      forall i | 0 <= i < |db'.users| ensures GroupByID(db'.groups, db'.users[i].group).Some? {
        assert db'.users[i] in db.users;
      }
      forall i | 0 <= i < |db'.rules| ensures UserByID(db'.users, db'.rules[i].user).Some? {
        var p := db'.rules[i];
        assert p in db.rules && p.user != id;
        var k := UserIdx(db.users, p.user);
        assert db.users[k] in db'.users;
      }
    }
  }

  // ---------- rules ----------

  ghost predicate SoundRules(rules: seq<Rule>, top: int) {
    RuleIds(rules, top) && RulePorts(rules) && RuleBodies(rules)
  }

  lemma KeepRules(rules: seq<Rule>, kept: seq<Rule>, top: int, user: int)
    requires SoundRules(rules, top) && kept == RulesNotOf(rules, user)
    ensures SoundRules(kept, top)
  {
    NotOfIsSound(rules, top, user);
  }

  lemma KeptDiffer(pre: seq<Rule>, p: Rule, kept: seq<Rule>, top: int)
    requires SoundRules(pre + [p], top) && forall x :: x in kept ==> x in pre
    ensures forall i :: 0 <= i < |kept| ==> kept[i].id != p.id && kept[i].port != p.port
    ensures SoundRules(pre, top) && 1 <= p.id <= top && 1 <= p.port <= 65535 && (p.tcp || p.udp) && ValidAllowed(p.allowed)
  {
    var all := pre + [p];
    assert all[|pre|] == p;
    assert forall k :: 0 <= k < |pre| ==> all[k] == pre[k];
    forall i | 0 <= i < |kept| ensures kept[i].id != p.id && kept[i].port != p.port {
      assert kept[i] in pre;
      var k :| 0 <= k < |pre| && pre[k] == kept[i];
    }
  }

  lemma {:induction false} NotOfIsSound(rules: seq<Rule>, top: int, user: int)
    requires SoundRules(rules, top)
    ensures SoundRules(RulesNotOf(rules, user), top)
  {
    if rules != [] {
      var pre, p := rules[..|rules| - 1], rules[|rules| - 1];
      assert rules == pre + [p];
      var kept := RulesNotOf(pre, user);
      KeptDiffer(pre, p, kept, top);
      NotOfIsSound(pre, top, user);
      OneMoreRule(kept, top, p);
    }
  }

  lemma {:induction false} WithoutIsSound(rules: seq<Rule>, top: int, ids: set<int>)
    requires SoundRules(rules, top)
    ensures SoundRules(RulesWithout(rules, ids), top)
  {
    if rules != [] {
      var pre, p := rules[..|rules| - 1], rules[|rules| - 1];
      assert rules == pre + [p];
      var kept := RulesWithout(pre, ids);
      KeptDiffer(pre, p, kept, top);
      WithoutIsSound(pre, top, ids);
      OneMoreRule(kept, top, p);
    }
  }

  lemma DropIsSound(db: DB, ids: set<int>)
    requires Sound(db)
    ensures Sound(DropRules(db, ids))
  {
    WithoutIsSound(db.rules, db.seqNo, ids);
    var kept := RulesWithout(db.rules, ids);
    forall i | 0 <= i < |kept| ensures UserByID(db.users, kept[i].user).Some? {
      assert kept[i] in db.rules;
    }
  }

  lemma AppendRule(rules: seq<Rule>, top: int, p: Rule, users: seq<User>)
    requires SoundRules(rules, top) && 0 <= top && p.id == top + 1 && Owners(rules, users) && UserByID(users, p.user).Some?
    requires ValidPortNum(rules, p.port) && (p.tcp || p.udp) && ValidAllowed(p.allowed)
    ensures SoundRules(rules + [p], top + 1) && Owners(rules + [p], users)
  {
    hide PortIdx;
    var n := PortIdx(rules, p.port);
    assert forall i :: 0 <= i < |rules| ==> rules[i].port != p.port;
  }

  lemma NewRuleIsSound(db: DB, owner: int, q: RuleReq, enabled: bool)
    requires Sound(db) && 0 <= db.seqNo
    requires ValidPortNum(db.rules, q.port) && (q.tcp || q.udp) && ValidAllowed(q.allowed) && UserByID(db.users, owner).Some?
    ensures Sound(NewRule(db, owner, q, enabled))
  {
    hide UserIds, Names, Ranges, Members, GroupIds, RuleIds, RulePorts, RuleBodies, Owners, ValidPortNum, UserByID;
    AppendRule(db.rules, db.seqNo, Rule(db.seqNo + 1, owner, q.port, q.tcp, q.udp, q.target, q.allowed, enabled, 0), db.users);
    HigherTop(db.users, db.groups, db.rules, db.seqNo);
  }

  lemma ReplaceRule(db: DB, i: nat, p: Rule)
    requires Sound(db) && i < |db.rules| && p.id == db.rules[i].id
    requires p.port == db.rules[i].port || ValidPortNum(db.rules, p.port)
    requires (p.tcp || p.udp) && ValidAllowed(p.allowed) && UserByID(db.users, p.user).Some?
    ensures Sound(db.(rules := db.rules[i := p]))
  {
  }

  lemma {:induction false} BatchIsSound(db: DB, owner: int, qs: seq<RuleReq>, ranges: seq<PortRange>)
    requires Sound(db) && 0 <= db.seqNo && UserByID(db.users, owner).Some? && BatchFits(db.rules, ranges, qs)
    ensures Sound(AppendRules(db, owner, qs)) && 0 <= AppendRules(db, owner, qs).seqNo
    ensures AppendRules(db, owner, qs).users == db.users
    ensures forall p :: p in AppendRules(db, owner, qs).rules ==> p in db.rules || exists j :: 0 <= j < |qs| && qs[j].port == p.port
  {
    if qs != [] {
      var pre, q := qs[..|qs| - 1], qs[|qs| - 1];
      BatchIsSound(db, owner, pre, ranges);
      var mid := AppendRules(db, owner, pre);
      BatchLineFits(db.rules, mid.rules, qs, ranges);
      NewRuleIsSound(mid, owner, q, q.enabled);
    }
  }

  /** The last line of a fitting batch still fits once the lines above it are in. */
  lemma BatchLineFits(rules: seq<Rule>, mid: seq<Rule>, qs: seq<RuleReq>, ranges: seq<PortRange>)
    requires qs != [] && BatchFits(rules, ranges, qs)
    requires forall p :: p in mid ==> p in rules || exists j :: 0 <= j < |qs| - 1 && qs[j].port == p.port
    ensures ValidPortNum(mid, qs[|qs| - 1].port) && GoodRuleReq(ranges, qs[|qs| - 1])
  {
  }

  // ---------- groups and totals ----------

  lemma {:induction false} RemoveGroup(groups: seq<Group>, top: int, id: int)
    requires GroupIds(groups, top)
    ensures GroupIds(GroupsWithout(groups, id), top)
  {
    if groups != [] {
      var pre, g := groups[..|groups| - 1], groups[|groups| - 1];
      assert groups == pre + [g];
      RemoveGroup(pre, top, id);
      OneMoreGroup(pre, g, GroupsWithout(pre, id), top);
    }
  }

  lemma OneMoreGroup(pre: seq<Group>, g: Group, kept: seq<Group>, top: int)
    requires GroupIds(pre + [g], top) && GroupIds(kept, top) && forall x :: x in kept ==> x in pre
    ensures GroupIds(kept + [g], top)
  {
    var all := pre + [g];
    assert all[|pre|] == g;
    assert forall k :: 0 <= k < |pre| ==> all[k] == pre[k];
    forall i | 0 <= i < |kept| ensures kept[i].id != g.id {
      assert kept[i] in pre;
      var k :| 0 <= k < |pre| && pre[k] == kept[i];
    }
  }

  lemma DeleteGroupIsSound(db: DB, id: int)
    requires Sound(db)
    ensures Sound(OnDeleteGroup(db, id).db)
  {
    var db' := OnDeleteGroup(db, id).db;
    if db' != db {
      RemoveGroup(db.groups, db.seqNo, id);
      forall i | 0 <= i < |db.users| ensures GroupByID(db'.groups, db.users[i].group).Some? {
        var k := GroupIdx(db.groups, db.users[i].group);
        assert db.groups[k] in db'.groups;
      }
    }
  }

  lemma NewGroupIsSound(db: DB, q: GroupReq)
    requires Sound(db) && 0 <= db.seqNo
    ensures Sound(OnCreateGroup(db, q).db)
  {
    if q.name != "" {
      var g := Group(db.seqNo + 1, q.name, q.mbps, q.quotaGB, q.enabled, 0);
      forall i | 0 <= i < |db.users| ensures GroupByID(db.groups + [g], db.users[i].group).Some? {
        MoreGroups(db.groups, g, db.users[i].group);
      }
    }
  }

  lemma EditGroupIsSound(db: DB, id: int, q: GroupReq)
    requires Sound(db)
    ensures Sound(OnEditGroup(db, id, q).db)
  {
    SameGroupIds(db.groups, OnEditGroup(db, id, q).db.groups);
  }

  lemma ResetUserIsSound(db: DB, id: int)
    requires Sound(db)
    ensures Sound(ResetUser(db, id))
  {
    ResetUserKeeps(db, id);
    TotalsDoNotMatter(db, ResetUser(db, id));
  }

  lemma ResetGroupIsSound(db: DB, id: int)
    requires Sound(db)
    ensures Sound(ResetGroup(db, id))
  {
    ResetGroupKeeps(db, id);
    TotalsDoNotMatter(db, ResetGroup(db, id));
  }

  lemma ResetUserKeeps(db: DB, id: int)
    ensures SameButTotals(db, ResetUser(db, id))
  {
  }

  lemma ResetGroupKeeps(db: DB, id: int)
    ensures SameButTotals(db, ResetGroup(db, id))
  {
  }

  /** Nothing but totals differs. */
  ghost predicate SameButTotals(db: DB, db': DB) {
    && db'.seqNo == db.seqNo
    && |db'.users| == |db.users| && |db'.groups| == |db.groups| && |db'.rules| == |db.rules|
    && (forall i :: 0 <= i < |db.users| ==> db'.users[i] == db.users[i].(total := db'.users[i].total))
    && (forall i :: 0 <= i < |db.groups| ==> db'.groups[i] == db.groups[i].(total := db'.groups[i].total))
    && (forall i :: 0 <= i < |db.rules| ==> db'.rules[i] == db.rules[i].(total := db'.rules[i].total))
  }

  lemma TotalsDoNotMatter(db: DB, db': DB)
    requires Sound(db) && SameButTotals(db, db')
    ensures Sound(db')
  {
    SameUserIds(db.users, db'.users);
    SameGroupIds(db.groups, db'.groups);
  }

  // ---------- what lookups see after a change ----------

  lemma {:induction false} AppendedPorts(db: DB, me: int, qs: seq<RuleReq>)
    ensures var r := AppendRules(db, me, qs).rules;
            && |r| == |db.rules| + |qs|
            && (forall i :: 0 <= i < |db.rules| ==> r[i] == db.rules[i])
            && (forall j :: 0 <= j < |qs| ==> r[|db.rules| + j].port == qs[j].port)
  {
    if qs != [] { AppendedPorts(db, me, qs[..|qs| - 1]); }
  }

  lemma UserAfterRemove(db: DB, gone: int, id: int)
    requires Sound(db) && id != gone && UserByID(db.users, id).Some?
    ensures UserByID(UsersWithout(db.users, gone), id) == UserByID(db.users, id)
  {
    var kept := UsersWithout(db.users, gone);
    var i, j := UserIdx(db.users, id), UserIdx(kept, id);
    assert db.users[i] in kept;
    assert j < |kept| && kept[j] in db.users;
    var k :| 0 <= k < |db.users| && db.users[k] == kept[j];
    assert k == i;
  }

  // ---------- the theorem ----------

  /** The part of a start state that makes the first ids positive. */
  ghost predicate Started(db: DB) {
    Sound(db) && 0 <= db.seqNo
  }

  lemma RegisterIsSound(db: DB, name: string, password: string)
    requires Started(db)
    ensures Sound(OnRegister(db, name, password).db)
  {
    hide Sound;
    if OnRegister(db, name, password).ok {
      NewUserIsSound(db, name, password, Member, db.settings.defaultGroup, true, 0, [], "");
    }
  }

  lemma CreateUserIsSound(db: DB, q: UserReq)
    requires Started(db)
    ensures Sound(OnCreateUser(db, q).db)
  {
    hide Sound;
    if OnCreateUser(db, q).ok {
      var role := if q.role.OtherRole? then Member else q.role;
      NewUserIsSound(db, q.name, q.password, role, q.group, q.enabled, q.expireAt, q.ranges, q.note);
    }
  }

  lemma EditUserIsSound(db: DB, id: int, q: UserReq)
    requires Started(db)
    ensures Sound(OnEditUser(db, id, q).db)
  {
    hide Sound, RangesFit, ValidUsername, NameTaken;
    var i := UserIdx(db.users, id);
    if i < |db.users| {
      WrittenUserIs(db.users[i], q, ValidUsername(q.name) && !NameTaken(db.users, q.name, db.users[i].id),
                    GroupByID(db.groups, q.group).Some?, RangesFit(db.users, q.ranges, db.users[i].id));
      hide WriteUser, UserIdx;
      SetUserIsSound(db, i, EditedUser(db, db.users[i], q).0);
    }
  }

  lemma SetPasswordIsSound(db: DB, id: int, password: string)
    requires Started(db)
    ensures Sound(OnSetPassword(db, id, password).db)
  {
    hide Sound;
    var i := UserIdx(db.users, id);
    if i < |db.users| {
      hide UserIdx;
      SetUserIsSound(db, i, db.users[i].(password := password));
    }
  }

  lemma EditedBodyIs(p: Rule, q: RuleReq)
    ensures var v := EditedBody(p, q).0;
            && v.id == p.id && v.total == p.total && v.port == p.port && v.user == p.user
            && (p.tcp || p.udp ==> v.tcp || v.udp) && (ValidAllowed(p.allowed) ==> ValidAllowed(v.allowed))
  {
  }

  /** What an edit may have left in the rule, at whichever check it stopped. */
  lemma WrittenRuleIs(p: Rule, owner: int, q: RuleReq, portOk: bool, ownerOk: bool)
    requires (p.tcp || p.udp) && ValidAllowed(p.allowed)
    ensures var v := WriteRule(p, owner, q, portOk, ownerOk).0;
            && v.id == p.id && v.total == p.total
            && (v.port == p.port || (v.port == q.port && portOk))
            && (v.user == p.user || (v.user == owner && ownerOk))
            && (v.tcp || v.udp) && ValidAllowed(v.allowed)
  {
    var p1 := if q.port > 0 then p.(port := q.port) else p;
    var p2 := if owner > 0 then p1.(user := owner) else p1;
    EditedBodyIs(p2, q);
  }

  lemma EditRuleIsSound(db: DB, id: int, owner: int, q: RuleReq)
    requires Started(db)
    ensures Sound(OnEditRule(db, id, owner, q).db)
  {
    var i := RuleIdx(db.rules, id);
    if i < |db.rules| {
      var p := db.rules[i];
      assert (p.tcp || p.udp) && ValidAllowed(p.allowed);
      hide Sound, ValidPortNum, InRange, RuleIdx;
      var u := UserByID(db.users, owner);
      WrittenRuleIs(p, owner, q, ValidPortNum(db.rules, q.port),
                    u.Some? && InRange(u.value.ranges, if q.port > 0 then q.port else p.port));
      hide WriteRule;
      ReplaceRule(db, i, EditedRule(db, p, owner, q).0);
    }
  }

  lemma EditOwnRuleIsSound(db: DB, me: int, id: int, q: RuleReq)
    requires Started(db)
    ensures Sound(OnEditOwnRule(db, me, id, q).db)
  {
    var i := RuleIdx(db.rules, id);
    if i < |db.rules| {
      var p := db.rules[i];
      assert (p.tcp || p.udp) && ValidAllowed(p.allowed) && UserByID(db.users, p.user).Some?;
      hide Sound, RuleIdx;
      EditedBodyIs(p, q);
      hide EditedBody;
      ReplaceRule(db, i, EditedBody(p, q).0);
    }
  }

  lemma CreateRuleIsSound(db: DB, owner: int, q: RuleReq)
    requires Started(db)
    ensures Sound(OnCreateRule(db, owner, q).db) && Sound(OnAddOwnRule(db, owner, q).db)
  {
    hide Sound, PortIdx;
    if OnCreateRule(db, owner, q).ok {
      NewRuleIsSound(db, owner, q, q.enabled);
      NewRuleIsSound(db, owner, q, true);
    }
  }

  lemma AddOwnRulesIsSound(db: DB, me: int, qs: seq<RuleReq>)
    requires Started(db)
    ensures Sound(OnAddOwnRules(db, me, qs).db)
  {
    hide Sound, BatchFits;
    if OnAddOwnRules(db, me, qs).ok {
      BatchIsSound(db, me, qs, UserByID(db.users, me).value.ranges);
    }
  }

  lemma DeletesAreSound(db: DB, me: int, id: int, ids: seq<int>)
    requires Sound(db)
    ensures Sound(OnDeleteRule(db, id).db) && Sound(OnDeleteOwnRule(db, me, id).db)
    ensures Sound(OnDeleteOwnRules(db, me, ids).db)
  {
    hide Sound, DropRules, RuleIdx, UserIdx;
    DropIsSound(db, {id});
    DropIsSound(db, set i | 0 <= i < |ids| :: ids[i]);
  }

  lemma {:induction false} BatchCounts(db: DB, me: int, qs: seq<RuleReq>)
    ensures AppendRules(db, me, qs).seqNo == db.seqNo + |qs|
  {
    if qs != [] { BatchCounts(db, me, qs[..|qs| - 1]); }
  }

  /** The counter never goes back. */
  lemma CounterGrows(db: DB, r: Request)
    ensures db.seqNo <= Handle(db, r).db.seqNo
  {
    hide RangesFit, UserIdx, NameIdx, GroupIdx, RuleIdx, ValidPortNum, GoodRuleReq, BatchFits, EditedUser, EditedRule, EditedBody;
    match r
    case AddOwnRules(me, qs) => BatchCounts(db, me, qs);
    case _ =>
  }

  lemma SettingsAreSound(db: DB, s: Settings)
    requires Sound(db)
    ensures Sound(OnEditSettings(db, s).db)
  {
  }

  /** Every request keeps the invariant, including one refused after it has already written some fields. */
  lemma RequestIsSound(db: DB, r: Request)
    requires Started(db)
    ensures Started(Handle(db, r).db)
  {
    CounterGrows(db, r);
    assert Sound(Handle(db, r).db) by { EachIsSound(db, r); }
  }

  lemma EachIsSound(db: DB, r: Request)
    requires Started(db)
    ensures Sound(Handle(db, r).db)
  {
    hide OnRegister, OnCreateUser, OnEditUser, OnDeleteUser, OnSetPassword, OnCreateGroup, OnEditGroup, OnDeleteGroup;
    hide OnCreateRule, OnEditRule, OnDeleteRule, OnEditSettings;
    hide OnAddOwnRule, OnAddOwnRules, OnEditOwnRule, OnDeleteOwnRule, OnDeleteOwnRules, ResetUser, ResetGroup;
    hide Sound;
    match r
    case Register(name, password) => RegisterIsSound(db, name, password);
    case CreateUser(q) => CreateUserIsSound(db, q);
    case EditUser(id, q) => EditUserIsSound(db, id, q);
    case DeleteUser(id, me) => DeleteUserIsSound(db, id, me);
    case SetPassword(id, password) => SetPasswordIsSound(db, id, password);
    case ResetUserTotals(id) => ResetUserIsSound(db, id);
    case CreateGroup(q) => NewGroupIsSound(db, q);
    case EditGroup(id, q) => EditGroupIsSound(db, id, q);
    case DeleteGroup(id) => DeleteGroupIsSound(db, id);
    case ResetGroupTotals(id) => ResetGroupIsSound(db, id);
    case CreateRule(owner, q) => CreateRuleIsSound(db, owner, q);
    case EditRule(id, owner, q) => EditRuleIsSound(db, id, owner, q);
    case DeleteRule(id) => DeletesAreSound(db, 0, id, []);
    case EditSettings(s) => SettingsAreSound(db, s);
    case AddOwnRule(me, q) => CreateRuleIsSound(db, me, q);
    case AddOwnRules(me, qs) => AddOwnRulesIsSound(db, me, qs);
    case EditOwnRule(me, id, q) => EditOwnRuleIsSound(db, me, id, q);
    case DeleteOwnRule(me, id) => DeletesAreSound(db, me, id, []);
    case DeleteOwnRules(me, ids) => DeletesAreSound(db, me, 0, ids);
  }

  /** Any run of requests from a sound database stays sound. */
  lemma {:induction false} RunIsSound(db: DB, rs: seq<Request>)
    requires Started(db)
    ensures Started(After(db, rs))
  {
    if rs != [] {
      hide Started, Handle;
      RunIsSound(db, rs[..|rs| - 1]);
      RequestIsSound(After(db, rs[..|rs| - 1]), rs[|rs| - 1]);
    }
  }
}
