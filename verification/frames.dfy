/** What a request leaves alone: totals, owners and groups of everything that was there before it. */
module Frames {
  import opened Stores
  import opened Registry
  import opened Soundness
  import opened Samples
  import opened Totals

  /** Every rule of `rules'` has the number and total of one in `rules`, and its owner if `own`, or is new and empty. */
  ghost predicate RulesFrame(rules: seq<Rule>, rules': seq<Rule>, top: int, own: bool) {
    forall p' :: p' in rules' ==>
      || (p'.id > top && p'.total == 0)
      || exists p :: p in rules && p.id == p'.id && p.total == p'.total && (own ==> p.user == p'.user)
  }

  ghost predicate UsersFrame(users: seq<User>, users': seq<User>, top: int, own: bool) {
    forall u' :: u' in users' ==>
      || (u'.id > top && u'.total == 0)
      || exists u :: u in users && u.id == u'.id && u.total == u'.total && (own ==> u.group == u'.group)
  }

  ghost predicate GroupsFrame(groups: seq<Group>, groups': seq<Group>, top: int) {
    forall g' :: g' in groups' ==>
      || (g'.id > top && g'.total == 0)
      || exists g :: g in groups && g.id == g'.id && g.total == g'.total
  }

  ghost predicate Frame(db: DB, db': DB, own: bool) {
    && RulesFrame(db.rules, db'.rules, db.seqNo, own)
    && UsersFrame(db.users, db'.users, db.seqNo, own)
    && GroupsFrame(db.groups, db'.groups, db.seqNo)
    && db.seqNo <= db'.seqNo && db'.daily == db.daily
  }

  // ---------- tables ----------

  lemma KeptGroups(groups: seq<Group>, groups': seq<Group>, top: int)
    requires forall g :: g in groups' ==> g in groups
    ensures GroupsFrame(groups, groups', top)
  {
  }

  lemma SetRule(rules: seq<Rule>, i: nat, p: Rule, top: int, own: bool)
    requires i < |rules| && p.id == rules[i].id && p.total == rules[i].total && (own ==> p.user == rules[i].user)
    ensures RulesFrame(rules, rules[i := p], top, own)
  {
  }

  lemma SetUser(users: seq<User>, i: nat, u: User, top: int, own: bool)
    requires i < |users| && u.id == users[i].id && u.total == users[i].total && (own ==> u.group == users[i].group)
    ensures UsersFrame(users, users[i := u], top, own)
  {
  }

  lemma SetGroup(groups: seq<Group>, i: nat, g: Group, top: int)
    requires i < |groups| && g.id == groups[i].id && g.total == groups[i].total
    ensures GroupsFrame(groups, groups[i := g], top)
  {
  }

  lemma FrameSame(db: DB, db': DB)
    requires db'.rules == db.rules && db'.users == db.users && db'.groups == db.groups
    requires db.seqNo <= db'.seqNo && db'.daily == db.daily
    ensures Frame(db, db', true)
  {
  }

  // ---------- handlers ----------

  lemma FrameNewRule(db: DB, owner: int, q: RuleReq, enabled: bool)
    ensures Frame(db, NewRule(db, owner, q, enabled), true)
  {
  }

  lemma {:induction false} FrameBatch(db: DB, owner: int, qs: seq<RuleReq>)
    ensures Frame(db, AppendRules(db, owner, qs), true)
  {
    if qs == [] {
      FrameSame(db, db);
    } else {
      var pre, q := qs[..|qs| - 1], qs[|qs| - 1];
      FrameBatch(db, owner, pre);
      var mid := AppendRules(db, owner, pre);
      FrameAppended(db, mid, Rule(mid.seqNo + 1, owner, q.port, q.tcp, q.udp, q.target, q.allowed, q.enabled, 0));
    }
  }

  lemma FrameAppended(db: DB, mid: DB, p: Rule)
    requires Frame(db, mid, true) && p.id == mid.seqNo + 1 && p.total == 0
    ensures Frame(db, mid.(seqNo := mid.seqNo + 1, rules := mid.rules + [p]), true)
  {
  }

  lemma FrameSetRule(db: DB, i: nat, p: Rule, own: bool)
    requires i < |db.rules| && p.id == db.rules[i].id && p.total == db.rules[i].total && (own ==> p.user == db.rules[i].user)
    ensures Frame(db, db.(rules := db.rules[i := p]), own)
  {
  }

  lemma FrameSetUser(db: DB, i: nat, u: User, own: bool)
    requires i < |db.users| && u.id == db.users[i].id && u.total == db.users[i].total && (own ==> u.group == db.users[i].group)
    ensures Frame(db, db.(users := db.users[i := u]), own)
  {
  }

  lemma FrameEditUser(db: DB, id: int, q: UserReq)
    ensures Frame(db, OnEditUser(db, id, q).db, !Moves(db, EditUser(id, q)))
  {
    var i := UserIdx(db.users, id);
    if i < |db.users| {
      var nameOk := ValidUsername(q.name) && !NameTaken(db.users, q.name, db.users[i].id);
      var groupOk := GroupByID(db.groups, q.group).Some?;
      var rangesOk := RangesFit(db.users, q.ranges, db.users[i].id);
      WrittenUserIs(db.users[i], q, nameOk, groupOk, rangesOk);
      SameGroupWritten(db.users[i], q, nameOk, groupOk, rangesOk);
      FrameSetUser(db, i, WriteUser(db.users[i], q, nameOk, groupOk, rangesOk).0, !Moves(db, EditUser(id, q)));
    } else {
      FrameSame(db, db);
    }
  }

  lemma FrameEditRule(db: DB, id: int, owner: int, q: RuleReq)
    ensures Frame(db, OnEditRule(db, id, owner, q).db, !Moves(db, EditRule(id, owner, q)))
  {
    var i := RuleIdx(db.rules, id);
    if i < |db.rules| {
      var p := db.rules[i];
      var p1 := if q.port > 0 then p.(port := q.port) else p;
      EditedBodyIs(p1, q);
      EditedBodyIs(if owner > 0 then p1.(user := owner) else p1, q);
      FrameSetRule(db, i, EditedRule(db, p, owner, q).0, !Moves(db, EditRule(id, owner, q)));
    } else {
      FrameSame(db, db);
    }
  }

  lemma FrameOwnEdit(db: DB, me: int, id: int, q: RuleReq)
    ensures Frame(db, OnEditOwnRule(db, me, id, q).db, true)
  {
  }

  lemma FrameDrop(db: DB, ids: set<int>)
    ensures Frame(db, DropRules(db, ids), true)
  {
  }

  lemma FrameDeleteUser(db: DB, id: int, me: int)
    ensures Frame(db, OnDeleteUser(db, id, me).db, true)
  {
  }

  lemma FrameSetPassword(db: DB, id: int, password: string)
    ensures Frame(db, OnSetPassword(db, id, password).db, true)
  {
  }

  lemma FrameGroups(db: DB, id: int, q: GroupReq)
    ensures Frame(db, OnCreateGroup(db, q).db, true)
    ensures Frame(db, OnEditGroup(db, id, q).db, true)
    ensures Frame(db, OnDeleteGroup(db, id).db, true)
  {
    FrameSame(db, db);
    KeptGroups(db.groups, GroupsWithout(db.groups, id), db.seqNo);
    FrameSame(db, db.(groups := db.groups, seqNo := db.seqNo + 1));
    var i := GroupIdx(db.groups, id);
    if i < |db.groups| {
      var g := db.groups[i];
      SetGroup(db.groups, i, Group(g.id, if q.name != "" then q.name else g.name, q.mbps, q.quotaGB, q.enabled, g.total), db.seqNo);
    }
  }

  lemma FrameAccounts(db: DB, name: string, password: string, q: UserReq)
    ensures Frame(db, OnRegister(db, name, password).db, true)
    ensures Frame(db, OnCreateUser(db, q).db, true)
  {
    hide RangesFit, NameIdx, GroupIdx, ValidUsername;
  }

  lemma FrameSettings(db: DB, s: Settings)
    ensures Frame(db, OnEditSettings(db, s).db, true)
  {
    FrameSame(db, OnEditSettings(db, s).db);
  }

  lemma FrameAdd(db: DB, me: int, q: RuleReq, qs: seq<RuleReq>)
    ensures Frame(db, OnCreateRule(db, me, q).db, true)
    ensures Frame(db, OnAddOwnRule(db, me, q).db, true)
    ensures Frame(db, OnAddOwnRules(db, me, qs).db, true)
  {
    FrameSame(db, db);
    FrameNewRule(db, me, q, q.enabled);
    FrameNewRule(db, me, q, true);
    FrameBatch(db, me, qs);
    hide Frame, NewRule, AppendRules, ValidPortNum, GoodRuleReq, BatchFits, UserIdx;
  }

  lemma FrameDelete(db: DB, me: int, id: int, ids: seq<int>)
    ensures Frame(db, OnDeleteRule(db, id).db, true)
    ensures Frame(db, OnDeleteOwnRule(db, me, id).db, true)
    ensures Frame(db, OnDeleteOwnRules(db, me, ids).db, true)
  {
    FrameSame(db, db);
    FrameDrop(db, {id});
    FrameDrop(db, set i | 0 <= i < |ids| :: ids[i]);
    hide Frame, DropRules, UserIdx, RuleIdx;
  }

  /** Apart from the two resets, a request changes no total of what exists, and no owner or group unless it moves one. */
  lemma RequestFrame(db: DB, r: Request)
    requires !r.ResetUserTotals? && !r.ResetGroupTotals?
    ensures Frame(db, Handle(db, r).db, !Moves(db, r))
  {
    hide OnRegister, OnCreateUser, OnEditUser, OnDeleteUser, OnSetPassword, OnCreateGroup, OnEditGroup, OnDeleteGroup;
    hide OnCreateRule, OnEditRule, OnDeleteRule, OnEditSettings;
    hide OnAddOwnRule, OnAddOwnRules, OnEditOwnRule, OnDeleteOwnRule, OnDeleteOwnRules, ResetUser, ResetGroup;
    hide Frame;
    match r
    case Register(name, password) => FrameAccounts(db, name, password, UserReq("", "", 0, false, 0, [], "", Member));
    case CreateUser(q) => FrameAccounts(db, "", "", q);
    case EditUser(id, q) => FrameEditUser(db, id, q);
    case DeleteUser(id, me) => FrameDeleteUser(db, id, me);
    case SetPassword(id, password) => FrameSetPassword(db, id, password);
    case CreateGroup(q) => FrameGroups(db, 0, q);
    case EditGroup(id, q) => FrameGroups(db, id, q);
    case DeleteGroup(id) => FrameGroups(db, id, GroupReq("", 0, 0, false));
    case EditRule(id, owner, q) => FrameEditRule(db, id, owner, q);
    case EditSettings(s) => FrameSettings(db, s);
    case EditOwnRule(me, id, q) => FrameOwnEdit(db, me, id, q);
    case CreateRule(owner, q) => FrameAdd(db, owner, q, []);
    case AddOwnRule(me, q) => FrameAdd(db, me, q, []);
    case AddOwnRules(me, qs) => FrameAdd(db, me, NumberEdit(0), qs);
    case DeleteRule(id) => FrameDelete(db, 0, id, []);
    case DeleteOwnRule(me, id) => FrameDelete(db, me, id, []);
    case DeleteOwnRules(me, ids) => FrameDelete(db, me, 0, ids);
  }
}
