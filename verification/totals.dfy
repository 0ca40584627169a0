/** How the totals of rules, users and groups stay nested inside one another. */
module Totals {
  import opened Stores
  import opened Registry
  import opened Soundness
  import opened Answers
  import opened Samples

  ghost function RuleBytes(rules: seq<Rule>, user: int): int {
    if rules == [] then 0
    else
      var p := rules[|rules| - 1];
      RuleBytes(rules[..|rules| - 1], user) + (if p.user == user then p.total else 0)
  }

  ghost function UserBytes(users: seq<User>, group: int): int {
    if users == [] then 0
    else
      var u := users[|users| - 1];
      UserBytes(users[..|users| - 1], group) + (if u.group == group then u.total else 0)
  }

  ghost predicate NoDebts(db: DB) {
    && (forall i :: 0 <= i < |db.rules| ==> db.rules[i].total >= 0)
    && (forall i :: 0 <= i < |db.users| ==> db.users[i].total >= 0)
    && (forall i :: 0 <= i < |db.groups| ==> db.groups[i].total >= 0)
  }

  ghost predicate RulesInUsers(rules: seq<Rule>, users: seq<User>) {
    forall i :: 0 <= i < |users| ==> RuleBytes(rules, users[i].id) <= users[i].total
  }

  ghost predicate UsersInGroups(users: seq<User>, groups: seq<Group>) {
    forall i :: 0 <= i < |groups| ==> UserBytes(users, groups[i].id) <= groups[i].total
  }

  /** A user's rules sum to at most the user's total, and a group's users to at most the group's. */
  ghost predicate Nested(db: DB) {
    NoDebts(db) && RulesInUsers(db.rules, db.users) && UsersInGroups(db.users, db.groups)
  }

  // ---------- sums ----------

  ghost function Part(p: Rule, user: int): int { if p.user == user then p.total else 0 }

  ghost function Share(u: User, group: int): int { if u.group == group then u.total else 0 }

  lemma {:induction false} RuleBytesUpdate(rules: seq<Rule>, i: nat, p: Rule, user: int)
    requires i < |rules|
    ensures RuleBytes(rules[i := p], user) == RuleBytes(rules, user) - Part(rules[i], user) + Part(p, user)
  {
    var n := |rules| - 1;
    if i < n {
      RuleBytesUpdate(rules[..n], i, p, user);
      assert rules[i := p][..n] == rules[..n][i := p];
    } else {
      assert rules[i := p][..n] == rules[..n];
    }
  }

  lemma {:induction false} UserBytesUpdate(users: seq<User>, i: nat, u: User, group: int)
    requires i < |users|
    ensures UserBytes(users[i := u], group) == UserBytes(users, group) - Share(users[i], group) + Share(u, group)
  {
    var n := |users| - 1;
    if i < n {
      UserBytesUpdate(users[..n], i, u, group);
      assert users[i := u][..n] == users[..n][i := u];
    } else {
      assert users[i := u][..n] == users[..n];
    }
  }

  /** Where no part grows, no sum grows. */
  lemma {:induction false} RuleBytesShrink(rules: seq<Rule>, rules': seq<Rule>, user: int)
    requires |rules| == |rules'| && forall i :: 0 <= i < |rules| ==> Part(rules'[i], user) <= Part(rules[i], user)
    ensures RuleBytes(rules', user) <= RuleBytes(rules, user)
  {
    if rules != [] { RuleBytesShrink(rules[..|rules| - 1], rules'[..|rules| - 1], user); }
  }

  lemma {:induction false} UserBytesShrink(users: seq<User>, users': seq<User>, group: int)
    requires |users| == |users'| && forall i :: 0 <= i < |users| ==> Share(users'[i], group) <= Share(users[i], group)
    ensures UserBytes(users', group) <= UserBytes(users, group)
  {
    if users != [] { UserBytesShrink(users[..|users| - 1], users'[..|users| - 1], group); }
  }

  lemma {:induction false} NoRuleBytes(rules: seq<Rule>, user: int)
    requires forall i :: 0 <= i < |rules| ==> Part(rules[i], user) == 0
    ensures RuleBytes(rules, user) == 0
  {
    if rules != [] { NoRuleBytes(rules[..|rules| - 1], user); }
  }

  lemma {:induction false} NoUserBytes(users: seq<User>, group: int)
    requires forall i :: 0 <= i < |users| ==> Share(users[i], group) == 0
    ensures UserBytes(users, group) == 0
  {
    if users != [] { NoUserBytes(users[..|users| - 1], group); }
  }

  lemma {:induction false} FewerRules(rules: seq<Rule>, ids: set<int>, user: int)
    requires forall i :: 0 <= i < |rules| ==> rules[i].total >= 0
    ensures RuleBytes(RulesWithout(rules, ids), user) <= RuleBytes(rules, user)
  {
    if rules != [] {
      var pre, p := rules[..|rules| - 1], rules[|rules| - 1];
      FewerRules(pre, ids, user);
      var kept := RulesWithout(pre, ids);
      if p.id !in ids {
        var more := kept + [p];
        assert more[..|more| - 1] == kept && more[|more| - 1] == p;
        assert RulesWithout(rules, ids) == more;
      } else {
        assert RulesWithout(rules, ids) == kept;
      }
    }
  }

  lemma {:induction false} FewerOwners(rules: seq<Rule>, id: int, user: int)
    requires forall i :: 0 <= i < |rules| ==> rules[i].total >= 0
    ensures RuleBytes(RulesNotOf(rules, id), user) <= RuleBytes(rules, user)
  {
    if rules != [] {
      var pre, p := rules[..|rules| - 1], rules[|rules| - 1];
      FewerOwners(pre, id, user);
      var kept := RulesNotOf(pre, id);
      if p.user != id {
        var more := kept + [p];
        assert more[..|more| - 1] == kept && more[|more| - 1] == p;
        assert RulesNotOf(rules, id) == more;
      } else {
        assert RulesNotOf(rules, id) == kept;
      }
    }
  }

  lemma {:induction false} FewerUsers(users: seq<User>, id: int, group: int)
    requires forall i :: 0 <= i < |users| ==> users[i].total >= 0
    ensures UserBytes(UsersWithout(users, id), group) <= UserBytes(users, group)
  {
    if users != [] {
      var pre, u := users[..|users| - 1], users[|users| - 1];
      FewerUsers(pre, id, group);
      var kept := UsersWithout(pre, id);
      if u.id != id {
        var more := kept + [u];
        assert more[..|more| - 1] == kept && more[|more| - 1] == u;
        assert UsersWithout(users, id) == more;
      } else {
        assert UsersWithout(users, id) == kept;
      }
    }
  }

  // ---------- settlements ----------

  /** What the settling connection remembers still describes whatever is left of it in the database. */
  ghost predicate Linked(db: DB, rule: int, user: int, group: int) {
    && (forall i :: 0 <= i < |db.rules| && db.rules[i].id == rule ==> db.rules[i].user == user)
    && (forall i :: 0 <= i < |db.users| && db.users[i].id == user ==> db.users[i].group == group)
  }

  /** The bytes go to the total of the user the connection remembers. If the rule has another owner by now, they must
      fit into what that one has passed already. */
  ghost predicate FitsOwner(db: DB, rule: int, user: int, n: int) {
    var p := RuleByID(db.rules, rule);
    p.Some? && p.value.user != user ==>
      var owner := UserByID(db.users, p.value.user);
      owner.Some? ==> RuleBytes(db.rules, p.value.user) + n <= owner.value.total
  }

  /** The same for the group the user is in by now. */
  ghost predicate FitsGroup(db: DB, user: int, group: int, n: int) {
    var u := UserByID(db.users, user);
    u.Some? && u.value.group != group ==>
      var g := GroupByID(db.groups, u.value.group);
      g.Some? ==> UserBytes(db.users, u.value.group) + n <= g.value.total
  }

  lemma SettleRules(db: DB, rule: int, user: int, n: int)
    requires RulesInUsers(db.rules, db.users) && UserIds(db.users, db.seqNo) && n > 0
    ensures RulesInUsers(AddToRule(db.rules, rule, n), AddToUser(db.users, user, n)) <==> FitsOwner(db, rule, user, n)
  {
    hide RuleIdx, UserIdx, RuleBytes;
    var rules', users' := AddToRule(db.rules, rule, n), AddToUser(db.users, user, n);
    var k := RuleIdx(db.rules, rule);
    if k < |db.rules| {
      var w := UserIdx(db.users, db.rules[k].user);
      forall i | 0 <= i < |users'|
        ensures RuleBytes(rules', users'[i].id) == RuleBytes(db.rules, users'[i].id) + if i == w then n else 0
      {
        RuleBytesUpdate(db.rules, k, rules'[k], users'[i].id);
      }
      if w < |db.users| { assert users'[w].id == db.rules[k].user; }
    } else {
      assert rules' == db.rules;
    }
    assert forall i :: 0 <= i < |users'| ==> users'[i].id == db.users[i].id;
  }

  lemma SettleUsers(db: DB, user: int, group: int, n: int)
    requires UsersInGroups(db.users, db.groups) && GroupIds(db.groups, db.seqNo) && n > 0
    ensures UsersInGroups(AddToUser(db.users, user, n), AddToGroup(db.groups, group, n)) <==> FitsGroup(db, user, group, n)
  {
    hide UserIdx, GroupIdx, UserBytes;
    var users', groups' := AddToUser(db.users, user, n), AddToGroup(db.groups, group, n);
    var k := UserIdx(db.users, user);
    if k < |db.users| {
      var w := GroupIdx(db.groups, db.users[k].group);
      forall i | 0 <= i < |groups'|
        ensures UserBytes(users', groups'[i].id) == UserBytes(db.users, groups'[i].id) + if i == w then n else 0
      {
        UserBytesUpdate(db.users, k, users'[k], groups'[i].id);
      }
      if w < |db.groups| { assert groups'[w].id == db.users[k].group; }
    } else {
      assert users' == db.users;
    }
    assert forall i :: 0 <= i < |groups'| ==> groups'[i].id == db.groups[i].id;
  }

  lemma SettleKeeps(db: DB, rule: int, user: int, group: int, n: int, today: string)
    ensures SameButTotals(db, Settle(db, rule, user, group, n, today))
  {
    hide RuleIdx, UserIdx, GroupIdx;
  }

  lemma SettleOwesNothing(db: DB, rule: int, user: int, group: int, n: int, today: string)
    requires NoDebts(db)
    ensures NoDebts(Settle(db, rule, user, group, n, today))
  {
  }

  /** A settlement keeps the nesting exactly when its bytes fit at both levels. */
  lemma SettleKeepsNesting(db: DB, rule: int, user: int, group: int, n: int, today: string)
    requires Started(db) && Nested(db)
    ensures Nested(Settle(db, rule, user, group, n, today))
       <==> n <= 0 || (FitsOwner(db, rule, user, n) && FitsGroup(db, user, group, n))
  {
    SettleOwesNothing(db, rule, user, group, n, today);
    if n > 0 {
      SettleRules(db, rule, user, n);
      SettleUsers(db, user, group, n);
    }
    hide RulesInUsers, UsersInGroups, AddToRule, AddToUser, AddToGroup, FitsOwner, FitsGroup;
  }

  lemma SettleIsNested(db: DB, rule: int, user: int, group: int, n: int, today: string)
    requires Started(db) && Nested(db) && Linked(db, rule, user, group)
    ensures Nested(Settle(db, rule, user, group, n, today)) && Started(Settle(db, rule, user, group, n, today))
  {
    hide RuleIdx, UserIdx, Nested, Settle;
    SettleKeeps(db, rule, user, group, n, today);
    TotalsDoNotMatter(db, Settle(db, rule, user, group, n, today));
    SettleKeepsNesting(db, rule, user, group, n, today);
  }

  // ---------- resets ----------

  lemma ResetUserIsNested(db: DB, id: int)
    requires Nested(db) && UserIds(db.users, db.seqNo)
    ensures Nested(ResetUser(db, id))
  {
    var db' := ResetUser(db, id);
    var k := UserIdx(db.users, id);
    if k < |db.users| {
      forall i | 0 <= i < |db'.users| ensures RuleBytes(db'.rules, db'.users[i].id) <= db'.users[i].total {
        if i == k {
          NoRuleBytes(db'.rules, id);
        } else {
          RuleBytesShrink(db.rules, db'.rules, db.users[i].id);
        }
      }
      forall i | 0 <= i < |db'.groups| ensures UserBytes(db'.users, db'.groups[i].id) <= db'.groups[i].total {
        UserBytesShrink(db.users, db'.users, db.groups[i].id);
      }
    }
  }

  lemma ResetGroupIsNested(db: DB, id: int)
    requires Nested(db)
    ensures Nested(ResetGroup(db, id))
  {
    var db' := ResetGroup(db, id);
    forall i | 0 <= i < |db'.users| ensures RuleBytes(db'.rules, db'.users[i].id) <= db'.users[i].total {
      if db.users[i].group == id {
        forall j | 0 <= j < |db'.rules| ensures Part(db'.rules[j], db'.users[i].id) == 0 {
          if db.rules[j].user == db.users[i].id {
            assert OwnerIn(db.users, db.rules[j], id);
          }
        }
        NoRuleBytes(db'.rules, db'.users[i].id);
      } else {
        RuleBytesShrink(db.rules, db'.rules, db.users[i].id);
      }
    }
    forall i | 0 <= i < |db'.groups| ensures UserBytes(db'.users, db'.groups[i].id) <= db'.groups[i].total {
      if db.groups[i].id == id {
        NoUserBytes(db'.users, id);
      } else {
        UserBytesShrink(db.users, db'.users, db.groups[i].id);
      }
    }
  }

  // ---------- users ----------

  lemma NewUserIsNested(db: DB, u: User)
    requires Started(db) && Nested(db) && u.id == db.seqNo + 1 && u.total == 0
    ensures Nested(db.(users := db.users + [u], seqNo := db.seqNo + 1))
  {
    var users' := db.users + [u];
    assert users'[..|db.users|] == db.users;
    forall i | 0 <= i < |users'| ensures RuleBytes(db.rules, users'[i].id) <= users'[i].total {
      if i == |db.users| {
        forall j | 0 <= j < |db.rules| ensures Part(db.rules[j], u.id) == 0 {
          assert UserByID(db.users, db.rules[j].user).Some?;
        }
        NoRuleBytes(db.rules, u.id);
      }
    }
    forall i | 0 <= i < |db.groups| ensures UserBytes(users', db.groups[i].id) <= db.groups[i].total {
      assert UserBytes(users', db.groups[i].id) == UserBytes(db.users, db.groups[i].id) + Share(u, db.groups[i].id);
    }
  }

  lemma SetUserIsNested(db: DB, i: nat, u: User)
    requires Nested(db) && i < |db.users| && u.id == db.users[i].id && u.total == db.users[i].total && u.group == db.users[i].group
    ensures Nested(db.(users := db.users[i := u]))
  {
    forall k | 0 <= k < |db.groups| ensures UserBytes(db.users[i := u], db.groups[k].id) <= db.groups[k].total {
      UserBytesUpdate(db.users, i, u, db.groups[k].id);
    }
  }

  lemma DeleteUserIsNested(db: DB, id: int, me: int)
    requires Nested(db)
    ensures Nested(OnDeleteUser(db, id, me).db)
  {
    var db' := OnDeleteUser(db, id, me).db;
    if db' != db {
      assert forall x :: x in db'.users ==> x in db.users;
      assert forall x :: x in db'.rules ==> x in db.rules;
      forall i | 0 <= i < |db'.users| ensures RuleBytes(db'.rules, db'.users[i].id) <= db'.users[i].total {
        assert db'.users[i] in db.users;
        FewerOwners(db.rules, id, db'.users[i].id);
      }
      forall i | 0 <= i < |db'.groups| ensures UserBytes(db'.users, db'.groups[i].id) <= db'.groups[i].total {
        FewerUsers(db.users, id, db.groups[i].id);
      }
      assert forall i :: 0 <= i < |db'.rules| ==> db'.rules[i] in db.rules;
      assert forall i :: 0 <= i < |db'.users| ==> db'.users[i] in db.users;
    }
  }

  // ---------- rules ----------

  lemma NewRuleIsNested(db: DB, owner: int, q: RuleReq, enabled: bool)
    requires Nested(db)
    ensures Nested(NewRule(db, owner, q, enabled))
  {
  }

  lemma {:induction false} BatchIsNested(db: DB, owner: int, qs: seq<RuleReq>)
    requires Nested(db)
    ensures Nested(AppendRules(db, owner, qs))
  {
    if qs != [] {
      BatchIsNested(db, owner, qs[..|qs| - 1]);
      NewRuleIsNested(AppendRules(db, owner, qs[..|qs| - 1]), owner, qs[|qs| - 1], qs[|qs| - 1].enabled);
    }
  }

  lemma SetRuleIsNested(db: DB, i: nat, p: Rule)
    requires Nested(db) && i < |db.rules| && p.total == db.rules[i].total && p.user == db.rules[i].user
    ensures Nested(db.(rules := db.rules[i := p]))
  {
    forall k | 0 <= k < |db.users| ensures RuleBytes(db.rules[i := p], db.users[k].id) <= db.users[k].total {
      RuleBytesUpdate(db.rules, i, p, db.users[k].id);
    }
  }

  lemma DropIsNested(db: DB, ids: set<int>)
    requires Nested(db)
    ensures Nested(DropRules(db, ids))
  {
    var db' := DropRules(db, ids);
    forall k | 0 <= k < |db.users| ensures RuleBytes(db'.rules, db.users[k].id) <= db.users[k].total {
      FewerRules(db.rules, ids, db.users[k].id);
    }
    assert forall i :: 0 <= i < |db'.rules| ==> db'.rules[i] in db.rules;
  }

  // ---------- groups ----------

  lemma NoMembersYet(db: DB, id: int)
    requires Started(db) && id > db.seqNo
    ensures UserBytes(db.users, id) == 0
  {
    forall i | 0 <= i < |db.users| ensures Share(db.users[i], id) == 0 {
      assert GroupByID(db.groups, db.users[i].group).Some?;
    }
    NoUserBytes(db.users, id);
  }

  lemma OneMoreGroupHolds(users: seq<User>, groups: seq<Group>, g: Group)
    requires UsersInGroups(users, groups) && UserBytes(users, g.id) <= g.total
    ensures UsersInGroups(users, groups + [g])
  {
    hide UserBytes;
  }

  lemma NewGroupIsNested(db: DB, q: GroupReq)
    requires Started(db) && Nested(db)
    ensures Nested(OnCreateGroup(db, q).db)
  {
    NoMembersYet(db, db.seqNo + 1);
    OneMoreGroupHolds(db.users, db.groups, Group(db.seqNo + 1, q.name, q.mbps, q.quotaGB, q.enabled, 0));
    hide UsersInGroups, RulesInUsers, Started;
  }

  lemma EditedGroupHolds(users: seq<User>, groups: seq<Group>, i: nat, g: Group)
    requires UsersInGroups(users, groups) && i < |groups| && g.id == groups[i].id && g.total == groups[i].total
    ensures UsersInGroups(users, groups[i := g])
  {
    hide UserBytes;
  }

  lemma FewerGroupsHold(users: seq<User>, groups: seq<Group>, id: int)
    requires UsersInGroups(users, groups)
    ensures UsersInGroups(users, GroupsWithout(groups, id))
  {
    hide UserBytes;
    var kept := GroupsWithout(groups, id);
    forall i | 0 <= i < |kept| ensures UserBytes(users, kept[i].id) <= kept[i].total {
      assert kept[i] in groups;
    }
  }

  lemma GroupEditsAreNested(db: DB, id: int, q: GroupReq)
    requires Nested(db)
    ensures Nested(OnEditGroup(db, id, q).db) && Nested(OnDeleteGroup(db, id).db)
  {
    FewerGroupsHold(db.users, db.groups, id);
    var kept := GroupsWithout(db.groups, id);
    assert forall i :: 0 <= i < |kept| ==> kept[i] in db.groups;
    var i := GroupIdx(db.groups, id);
    if i < |db.groups| {
      var g := OnEditGroup(db, id, q).db.groups[i];
      EditedGroupHolds(db.users, db.groups, i, g);
    }
    hide UsersInGroups, RulesInUsers, GroupIdx, GroupsWithout;
  }

  // ---------- every request ----------

  /** Does the request hand a user to another group, or a rule to another user? */
  predicate Moves(db: DB, r: Request) {
    match r
    case EditUser(id, q) =>
      var u := UserByID(db.users, id);
      u.Some? && q.group > 0 && q.group != u.value.group
    case EditRule(id, owner, q) =>
      var p := RuleByID(db.rules, id);
      p.Some? && owner > 0 && owner != p.value.user
    case _ => false
  }

  lemma EditUserIsNested(db: DB, id: int, q: UserReq)
    requires Nested(db) && !Moves(db, EditUser(id, q))
    ensures Nested(OnEditUser(db, id, q).db)
  {
    var i := UserIdx(db.users, id);
    if i < |db.users| {
      WrittenUserIs(db.users[i], q, ValidUsername(q.name) && !NameTaken(db.users, q.name, db.users[i].id),
                    GroupByID(db.groups, q.group).Some?, RangesFit(db.users, q.ranges, db.users[i].id));
      SameGroupWritten(db.users[i], q, ValidUsername(q.name) && !NameTaken(db.users, q.name, db.users[i].id),
                       GroupByID(db.groups, q.group).Some?, RangesFit(db.users, q.ranges, db.users[i].id));
      SetUserIsNested(db, i, EditedUser(db, db.users[i], q).0);
    }
  }

  lemma SameGroupWritten(u: User, q: UserReq, nameOk: bool, groupOk: bool, rangesOk: bool)
    ensures var v := WriteUser(u, q, nameOk, groupOk, rangesOk).0; v.group == u.group || (q.group > 0 && v.group == q.group)
  {
  }

  lemma EditRuleIsNested(db: DB, id: int, owner: int, q: RuleReq)
    requires Nested(db) && !Moves(db, EditRule(id, owner, q))
    ensures Nested(OnEditRule(db, id, owner, q).db)
  {
    var i := RuleIdx(db.rules, id);
    if i < |db.rules| {
      var p := db.rules[i];
      EditedBodyIs(if q.port > 0 then p.(port := q.port) else p, q);
      SetRuleIsNested(db, i, EditedRule(db, p, owner, q).0);
    }
  }

  lemma OwnEditIsNested(db: DB, me: int, id: int, q: RuleReq)
    requires Nested(db)
    ensures Nested(OnEditOwnRule(db, me, id, q).db)
  {
    var i := RuleIdx(db.rules, id);
    if i < |db.rules| {
      EditedBodyIs(db.rules[i], q);
      SetRuleIsNested(db, i, EditedBody(db.rules[i], q).0);
    }
  }

  lemma AddsAreNested(db: DB, owner: int, q: RuleReq, qs: seq<RuleReq>)
    requires Nested(db)
    ensures Nested(OnCreateRule(db, owner, q).db) && Nested(OnAddOwnRule(db, owner, q).db)
    ensures Nested(OnAddOwnRules(db, owner, qs).db)
  {
    hide Nested, ValidPortNum, GoodRuleReq, BatchFits, UserIdx;
    NewRuleIsNested(db, owner, q, q.enabled);
    NewRuleIsNested(db, owner, q, true);
    BatchIsNested(db, owner, qs);
    hide NewRule, AppendRules;
  }

  lemma DropsAreNested(db: DB, me: int, id: int, ids: seq<int>)
    requires Nested(db)
    ensures Nested(OnDeleteRule(db, id).db) && Nested(OnDeleteOwnRule(db, me, id).db)
    ensures Nested(OnDeleteOwnRules(db, me, ids).db)
  {
    hide Nested, UserIdx, RuleIdx, DropRules;
    DropIsNested(db, {id});
    DropIsNested(db, set i | 0 <= i < |ids| :: ids[i]);
  }

  lemma NewUsersAreNested(db: DB, name: string, password: string, q: UserReq)
    requires Started(db) && Nested(db)
    ensures Nested(OnRegister(db, name, password).db) && Nested(OnCreateUser(db, q).db)
  {
    hide Nested, Started, RangesFit, NameIdx, GroupIdx, ValidUsername;
    var one, two := OnRegister(db, name, password), OnCreateUser(db, q);
    if one.ok { NewUserIsNested(db, one.db.users[|db.users|]); }
    if two.ok { NewUserIsNested(db, two.db.users[|db.users|]); }
  }

  lemma SettingsAreNested(db: DB, s: Settings)
    requires Nested(db)
    ensures Nested(OnEditSettings(db, s).db)
  {
  }

  lemma SetPasswordIsNested(db: DB, id: int, password: string)
    requires Nested(db)
    ensures Nested(OnSetPassword(db, id, password).db)
  {
    var i := UserIdx(db.users, id);
    if i < |db.users| { SetUserIsNested(db, i, db.users[i].(password := password)); }
  }

  lemma ResetsAreNested(db: DB, id: int)
    requires Started(db) && Nested(db)
    ensures Nested(ResetUser(db, id)) && Nested(ResetGroup(db, id))
  {
    hide Nested, ResetUser, ResetGroup;
    ResetUserIsNested(db, id);
    ResetGroupIsNested(db, id);
  }

  lemma RequestIsNested(db: DB, r: Request)
    requires Started(db) && Nested(db) && !Moves(db, r)
    ensures Nested(Handle(db, r).db)
  {
    hide OnRegister, OnCreateUser, OnEditUser, OnDeleteUser, OnSetPassword, OnCreateGroup, OnEditGroup, OnDeleteGroup;
    hide OnCreateRule, OnEditRule, OnDeleteRule, OnEditSettings;
    hide OnAddOwnRule, OnAddOwnRules, OnEditOwnRule, OnDeleteOwnRule, OnDeleteOwnRules, ResetUser, ResetGroup;
    hide Nested, Started, Moves;
    match r
    case Register(name, password) => NewUsersAreNested(db, name, password, AliceEdit(0));
    case CreateUser(q) => NewUsersAreNested(db, "", "", q);
    case EditUser(id, q) => EditUserIsNested(db, id, q);
    case DeleteUser(id, me) => DeleteUserIsNested(db, id, me);
    case SetPassword(id, password) => SetPasswordIsNested(db, id, password);
    case ResetUserTotals(id) => ResetsAreNested(db, id);
    case CreateGroup(q) => NewGroupIsNested(db, q);
    case EditGroup(id, q) => GroupEditsAreNested(db, id, q);
    case DeleteGroup(id) => GroupEditsAreNested(db, id, GroupReq("", 0, 0, false));
    case ResetGroupTotals(id) => ResetsAreNested(db, id);
    case EditSettings(s) => SettingsAreNested(db, s);
    case CreateRule(owner, q) => AddsAreNested(db, owner, q, []);
    case AddOwnRule(me, q) => AddsAreNested(db, me, q, []);
    case AddOwnRules(me, qs) => AddsAreNested(db, me, NumberEdit(0), qs);
    case EditRule(id, owner, q) => EditRuleIsNested(db, id, owner, q);
    case EditOwnRule(me, id, q) => OwnEditIsNested(db, me, id, q);
    case DeleteRule(id) => DropsAreNested(db, 0, id, []);
    case DeleteOwnRule(me, id) => DropsAreNested(db, me, id, []);
    case DeleteOwnRules(me, ids) => DropsAreNested(db, me, 0, ids);
  }

  // ---------- moves: bytes come along that the new owner never passed ----------

  lemma MovedRule(db: DB, i: nat, p: Rule)
    requires Sound(db) && Nested(db) && i < |db.rules| && p.total == db.rules[i].total && p.user != db.rules[i].user
    requires UserByID(db.users, p.user).Some?
    ensures Nested(db.(rules := db.rules[i := p]))
       <==> RuleBytes(db.rules, p.user) + p.total <= UserByID(db.users, p.user).value.total
  {
    MovedRuleSums(db.rules, i, p, db.users, db.seqNo);
    hide RulesInUsers, UsersInGroups, UserIdx;
  }

  lemma MovedRuleSums(rules: seq<Rule>, i: nat, p: Rule, users: seq<User>, top: int)
    requires UserIds(users, top) && RulesInUsers(rules, users) && i < |rules|
    requires 0 <= p.total == rules[i].total && p.user != rules[i].user && UserByID(users, p.user).Some?
    ensures RulesInUsers(rules[i := p], users) <==> RuleBytes(rules, p.user) + p.total <= UserByID(users, p.user).value.total
  {
    var rules' := rules[i := p];
    var j := UserIdx(users, p.user);
    hide UserIdx;
    RuleBytesUpdate(rules, i, p, p.user);
    forall k | 0 <= k < |users| && k != j ensures RuleBytes(rules', users[k].id) <= users[k].total {
      RuleBytesUpdate(rules, i, p, users[k].id);
    }
    hide RuleBytes;
  }

  lemma MovedUser(db: DB, i: nat, u: User)
    requires Sound(db) && Nested(db) && i < |db.users| && u.total == db.users[i].total && u.id == db.users[i].id
    requires u.group != db.users[i].group && GroupByID(db.groups, u.group).Some?
    ensures Nested(db.(users := db.users[i := u]))
       <==> UserBytes(db.users, u.group) + u.total <= GroupByID(db.groups, u.group).value.total
  {
    MovedUserSums(db.users, i, u, db.groups, db.seqNo);
    hide UsersInGroups, GroupIdx, RuleBytes;
    var users' := db.users[i := u];
    assert forall k :: 0 <= k < |db.users| ==> users'[k].id == db.users[k].id && users'[k].total == db.users[k].total;
  }

  lemma MovedUserSums(users: seq<User>, i: nat, u: User, groups: seq<Group>, top: int)
    requires GroupIds(groups, top) && UsersInGroups(users, groups) && i < |users|
    requires 0 <= u.total == users[i].total && u.group != users[i].group && GroupByID(groups, u.group).Some?
    ensures UsersInGroups(users[i := u], groups) <==> UserBytes(users, u.group) + u.total <= GroupByID(groups, u.group).value.total
  {
    var users' := users[i := u];
    var j := GroupIdx(groups, u.group);
    hide GroupIdx;
    UserBytesUpdate(users, i, u, u.group);
    forall k | 0 <= k < |groups| && k != j ensures UserBytes(users', groups[k].id) <= groups[k].total {
      UserBytesUpdate(users, i, u, groups[k].id);
    }
    hide UserBytes;
  }

  /** An edit keeps the nesting exactly when it hands the rule to nobody else, or the rule's bytes still fit into the new
      owner's total. */
  lemma EditRuleKeepsNesting(db: DB, i: nat, owner: int, q: RuleReq)
    requires Started(db) && Nested(db) && i < |db.rules|
    ensures Nested(OnEditRule(db, db.rules[i].id, owner, q).db)
       <==> !HandsOver(db, db.rules[i], owner, q)
            || RuleBytes(db.rules, owner) + db.rules[i].total <= UserByID(db.users, owner).value.total
  {
    assert RuleIdx(db.rules, db.rules[i].id) == i;
    WrittenPlace(db, db.rules[i], owner, q);
    var p := EditedRule(db, db.rules[i], owner, q).0;
    hide EditedRule, Nested, Sound;
    if HandsOver(db, db.rules[i], owner, q) {
      MovedRule(db, i, p);
    } else {
      SetRuleIsNested(db, i, p);
    }
  }

  /** The same for a user and a group. */
  lemma EditUserKeepsNesting(db: DB, i: nat, q: UserReq)
    requires Started(db) && Nested(db) && i < |db.users|
    ensures Nested(OnEditUser(db, db.users[i].id, q).db)
       <==> !JoinsGroup(db, db.users[i], q)
            || UserBytes(db.users, q.group) + db.users[i].total <= GroupByID(db.groups, q.group).value.total
  {
    assert UserIdx(db.users, db.users[i].id) == i;
    WrittenMembership(db, db.users[i], q);
    var u := EditedUser(db, db.users[i], q).0;
    hide EditedUser, Nested, Sound;
    if JoinsGroup(db, db.users[i], q) {
      MovedUser(db, i, u);
    } else {
      SetUserIsNested(db, i, u);
    }
  }

  /** An accepted or refused edit that hands over bytes which do not fit. */
  ghost predicate BreaksNesting(db: DB, r: Request) {
    match r
    case EditUser(id, q) =>
      var u := UserByID(db.users, id);
      && u.Some? && JoinsGroup(db, u.value, q)
      && UserBytes(db.users, q.group) + u.value.total > GroupByID(db.groups, q.group).value.total
    case EditRule(id, owner, q) =>
      var p := RuleByID(db.rules, id);
      && p.Some? && HandsOver(db, p.value, owner, q)
      && RuleBytes(db.rules, owner) + p.value.total > UserByID(db.users, owner).value.total
    case _ => false
  }

  /** Of all requests, exactly those edits break the nesting. */
  lemma RequestKeepsNesting(db: DB, r: Request)
    requires Started(db) && Nested(db)
    ensures Nested(Handle(db, r).db) <==> !BreaksNesting(db, r)
  {
    hide OnEditUser, OnEditRule, JoinsGroup, HandsOver, Nested, Started, RuleBytes, UserBytes;
    if r.EditUser? && UserByID(db.users, r.id).Some? {
      EditUserKeepsNesting(db, UserIdx(db.users, r.id), r.user);
    } else if r.EditRule? && RuleByID(db.rules, r.id).Some? {
      EditRuleKeepsNesting(db, RuleIdx(db.rules, r.id), r.owner, r.rule);
    } else {
      hide Handle;
      RequestIsNested(db, r);
    }
  }

  lemma PairBytes(p: Rule, q: Rule, user: int)
    ensures RuleBytes([p, q], user) == Part(p, user) + Part(q, user)
  {
    assert [p, q][..1] == [p] && [p][..0] == [];
    assert RuleBytes([p], user) == Part(p, user);
  }

  lemma PairShares(u: User, v: User, group: int)
    ensures UserBytes([u, v], group) == Share(u, group) + Share(v, group)
  {
    assert [u, v][..1] == [u] && [u][..0] == [];
    assert UserBytes([u], group) == Share(u, group);
  }

  lemma SampleIsNested(a: nat, b: nat, quotaGB: int)
    ensures Nested(Sample(a, b, quotaGB))
  {
    var db := Sample(a, b, quotaGB);
    forall i | 0 <= i < |db.users| ensures RuleBytes(db.rules, db.users[i].id) <= db.users[i].total {
      PairBytes(db.rules[0], db.rules[1], db.users[i].id);
    }
    forall i | 0 <= i < |db.groups| ensures UserBytes(db.users, db.groups[i].id) <= db.groups[i].total {
      PairShares(db.users[0], db.users[1], db.groups[i].id);
    }
  }

  /** Both edits do break it: a rule handed to a user, and a user moved to a group, that passed less. */
  lemma EditsCanBreakTheNesting() returns (db: DB, q: UserReq, p: RuleReq)
    ensures Started(db) && Nested(db)
    ensures OnEditRule(db, 4, 3, p).ok && !Nested(OnEditRule(db, 4, 3, p).db)
    ensures OnEditUser(db, 2, q).ok && !Nested(OnEditUser(db, 2, q).db)
  {
    db := Sample(100, 0, 0);
    q, p := AliceEdit(6), NumberEdit(2001);
    SampleIsStarted(100, 0, 0);
    SampleIsNested(100, 0, 0);
    SampleLookups(100, 0, 0);
    assert Bob(0).ranges[0].start <= 2001 <= Bob(0).ranges[0].end;
    EditRuleAccepted(db, db.rules[0], 3, p);
    EditRuleKeepsNesting(db, 0, 3, p);
    PairBytes(db.rules[0], db.rules[1], 3);
    EditUserAccepted(db, db.users[0], q);
    EditUserKeepsNesting(db, 0, q);
    PairShares(db.users[0], db.users[1], 6);
  }

  /** A handover that keeps it can still be followed by a settlement that does not: the connection was opened before, so
      its byte goes to the old owner's total. */
  lemma SettlementsCanBreakTheNesting(today: string) returns (db: DB, p: RuleReq)
    ensures Started(db) && Nested(db)
    ensures var after := OnEditRule(db, 4, 3, p);
            after.ok && Nested(after.db) && !Nested(Settle(after.db, 4, 2, 1, 1, today))
  {
    hide EditedRule, Started, Nested, Settle, RuleIdx, UserIdx;
    db := Sample(0, 0, 0);
    p := NumberEdit(2001);
    SampleIsStarted(0, 0, 0);
    SampleIsNested(0, 0, 0);
    SampleLookups(0, 0, 0);
    assert Bob(0).ranges[0].start <= 2001 <= Bob(0).ranges[0].end;
    EditRuleAccepted(db, db.rules[0], 3, p);
    EditRuleKeepsNesting(db, 0, 3, p);
    PairBytes(db.rules[0], db.rules[1], 3);
    var after := OnEditRule(db, 4, 3, p).db;
    RequestIsSound(db, EditRule(4, 3, p));
    PairBytes(after.rules[0], after.rules[1], 3);
    assert after.rules[0].id == 4 && after.rules[0].user == 3;
    assert RuleByID(after.rules, 4) == Some(after.rules[0]);
    assert UserByID(after.users, 3) == Some(Bob(0));
    assert RuleBytes(after.rules, 3) + 1 > Bob(0).total;
    assert !FitsOwner(after, 4, 2, 1);
    SettleKeepsNesting(after, 4, 2, 1, 1, today);
  }
}
