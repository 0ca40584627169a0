/** The quota test, and how long a user stays cut off (canUse and flush in relay.go). */
module Quota {
  import opened Stores
  import opened Registry
  import opened Soundness
  import opened Answers
  import opened Samples
  import opened Totals
  import opened Billing
  import opened BillingSafety
  import opened BillingLedger

  /** The checks canUse makes before the quota. */
  predicate Admissible(db: DB, p: Rule, now: int) {
    var u := UserByID(db.users, p.user);
    && p.enabled && u.Some? && u.value.enabled && (u.value.expireAt > 0 ==> now <= u.value.expireAt)
    && GroupByID(db.groups, u.value.group).Some? && GroupByID(db.groups, u.value.group).value.enabled
  }

  /** New traffic and flush go by the same test: among rules that pass the other checks, exactly those of a user that a
      flush would cut off are refused for quota. */
  lemma SameQuotaTest(db: DB, p: Rule, now: int)
    ensures Admissible(db, p, now) ==>
              (CanUse(db, p, now) == DenyQuota <==> OverQuota(db, UserByID(db.users, p.user).value))
    ensures CanUse(db, p, now) == Allow <==> Admissible(db, p, now) && !OverQuota(db, UserByID(db.users, p.user).value)
  {
  }

  ghost predicate CutOff(db: DB, id: int) {
    UserByID(db.users, id).Some? && OverQuota(db, UserByID(db.users, id).value)
  }

  /** The user keeps its group and no byte of its total is lost; the group keeps its quota. */
  ghost predicate KeepsUser(db: DB, db': DB, id: int) {
    && UserByID(db.users, id).Some? && UserByID(db'.users, id).Some?
    && UserByID(db'.users, id).value.group == UserByID(db.users, id).value.group
    && UserByID(db'.users, id).value.total >= UserByID(db.users, id).value.total
  }

  ghost predicate KeepsQuota(db: DB, db': DB, g: int) {
    GroupByID(db.groups, g).Some? ==>
      GroupByID(db'.groups, g).Some? && GroupByID(db'.groups, g).value.quotaGB == GroupByID(db.groups, g).value.quotaGB
  }

  lemma KeptIsCutOff(db: DB, db': DB, id: int)
    requires CutOff(db, id) && UserByID(db.users, id).Some?
    requires KeepsUser(db, db', id) && KeepsQuota(db, db', UserByID(db.users, id).value.group)
    ensures CutOff(db', id)
  {
  }

  // ---------- lookups after a change ----------

  lemma UserAfterSet(users: seq<User>, i: nat, u: User, id: int)
    requires i < |users| && u.id == users[i].id
    ensures UserByID(users[i := u], id)
         == if UserIdx(users, id) == i then Some(u) else UserByID(users, id)
  {
    var a, b := UserIdx(users, id), UserIdx(users[i := u], id);
    if a < |users| { assert users[i := u][a].id == id; }
    if b < |users| { assert users[b].id == id; }
  }

  lemma GroupAfterSet(groups: seq<Group>, i: nat, g: Group, id: int)
    requires i < |groups| && g.id == groups[i].id
    ensures GroupByID(groups[i := g], id)
         == if GroupIdx(groups, id) == i then Some(g) else GroupByID(groups, id)
  {
    var a, b := GroupIdx(groups, id), GroupIdx(groups[i := g], id);
    if a < |groups| { assert groups[i := g][a].id == id; }
    if b < |groups| { assert groups[b].id == id; }
  }

  lemma UserAfterAppend(users: seq<User>, u: User, id: int)
    requires UserByID(users, id).Some?
    ensures UserByID(users + [u], id) == UserByID(users, id)
  {
    var a, b := UserIdx(users, id), UserIdx(users + [u], id);
    assert (users + [u])[a].id == id;
  }

  lemma GroupAfterAppend(groups: seq<Group>, g: Group, id: int)
    requires GroupByID(groups, id).Some?
    ensures GroupByID(groups + [g], id) == GroupByID(groups, id)
  {
    var a, b := GroupIdx(groups, id), GroupIdx(groups + [g], id);
    assert (groups + [g])[a].id == id;
  }

  lemma GroupAfterRemove(db: DB, gone: int, id: int)
    requires Sound(db) && id != gone && GroupByID(db.groups, id).Some?
    ensures GroupByID(GroupsWithout(db.groups, gone), id) == GroupByID(db.groups, id)
  {
    var kept := GroupsWithout(db.groups, gone);
    var i, j := GroupIdx(db.groups, id), GroupIdx(kept, id);
    assert db.groups[i] in kept;
    assert j < |kept| && kept[j] in db.groups;
    var k :| 0 <= k < |db.groups| && db.groups[k] == kept[j];
    assert k == i;
  }

  /** Tables that differ in totals only look up alike. */
  lemma LookupsAfterTotals(db: DB, db': DB, id: int)
    requires SameButTotals(db, db')
    ensures UserIdx(db'.users, id) == UserIdx(db.users, id)
    ensures GroupIdx(db'.groups, id) == GroupIdx(db.groups, id)
  {
  }

  // ---------- what can lift the cut-off ----------

  /** Requests that are about user `id`, its group or its totals. */
  predicate Concerns(db: DB, r: Request, id: int) {
    var u := UserByID(db.users, id);
    match r
    case EditUser(x, _) => x == id
    case DeleteUser(x, _) => x == id
    case ResetUserTotals(x) => x == id
    case EditGroup(g, _) => u.Some? && g == u.value.group
    case ResetGroupTotals(g) => u.Some? && g == u.value.group
    case _ => false
  }

  predicate Reaches(u: User, g: Group) {
    QuotaBytes(g) > 0 && u.total >= QuotaBytes(g)
  }

  /** Requests that lift the cut-off of user `id`: a reset, a move to a group whose quota it has not reached, a quota for
      its group that it has not reached, its removal by somebody else. */
  predicate RequestRelieves(db: DB, r: Request, id: int) {
    var u := UserByID(db.users, id);
    u.Some? &&
    match r
    case EditUser(x, q) => x == id && JoinsGroup(db, u.value, q) && !Reaches(u.value, GroupByID(db.groups, q.group).value)
    case DeleteUser(x, me) => x == id && x != me
    case ResetUserTotals(x) => x == id
    case EditGroup(g, q) => g == u.value.group && !Reaches(u.value, Group(g, q.name, q.mbps, q.quotaGB, q.enabled, 0))
    case ResetGroupTotals(g) => g == u.value.group
    case _ => false
  }

  lemma NewUsersKeep(db: DB, name: string, password: string, q: UserReq, id: int)
    requires UserByID(db.users, id).Some?
    ensures KeepsUser(db, OnRegister(db, name, password).db, id) && KeepsUser(db, OnCreateUser(db, q).db, id)
  {
    hide RangesFit, ValidUsername, NameIdx, GroupIdx, UserIdx;
    var one, two := OnRegister(db, name, password), OnCreateUser(db, q);
    if one.ok { UserAfterAppend(db.users, one.db.users[|db.users|], id); }
    if two.ok { UserAfterAppend(db.users, two.db.users[|db.users|], id); }
  }

  lemma OtherUserStays(db: DB, x: int, me: int, id: int)
    requires Started(db) && UserByID(db.users, id).Some? && x != id
    ensures KeepsUser(db, OnDeleteUser(db, x, me).db, id)
  {
    UserAfterRemove(db, x, id);
    hide UserIdx, Sound;
  }

  lemma PasswordKeeps(db: DB, x: int, password: string, id: int)
    requires UserByID(db.users, id).Some?
    ensures KeepsUser(db, OnSetPassword(db, x, password).db, id)
  {
    var i := UserIdx(db.users, x);
    if i < |db.users| { UserAfterSet(db.users, i, db.users[i].(password := password), id); }
  }

  lemma AccountsLeaveGroups(db: DB, r: Request)
    requires r.Register? || r.CreateUser? || r.EditUser? || r.DeleteUser? || r.SetPassword?
    ensures Handle(db, r).db.groups == db.groups
  {
    hide RangesFit, ValidUsername, NameIdx, GroupIdx, UserIdx, EditedUser;
  }

  lemma UserRequestsKeep(db: DB, r: Request, id: int)
    requires Started(db) && UserByID(db.users, id).Some? && !Concerns(db, r, id)
    requires r.Register? || r.CreateUser? || r.EditUser? || r.DeleteUser? || r.SetPassword?
    ensures KeepsUser(db, Handle(db, r).db, id) && Handle(db, r).db.groups == db.groups
  {
    AccountsLeaveGroups(db, r);
    assert KeepsUser(db, Handle(db, r).db, id) by {
      hide OnRegister, OnCreateUser, OnEditUser, OnDeleteUser, OnSetPassword, KeepsUser, UserByID, Started;
      match r
      case Register(name, password) => NewUsersKeep(db, name, password, AliceEdit(0), id);
      case CreateUser(q) => NewUsersKeep(db, "", "", q, id);
      case EditUser(x, q) => EditKeepsOthers(db, x, q, id);
      case DeleteUser(x, me) => OtherUserStays(db, x, me, id);
      case SetPassword(x, password) => PasswordKeeps(db, x, password, id);
    }
  }

  lemma EditKeepsOthers(db: DB, x: int, q: UserReq, id: int)
    requires UserByID(db.users, id).Some? && x != id
    ensures KeepsUser(db, OnEditUser(db, x, q).db, id)
  {
    var i := UserIdx(db.users, x);
    if i < |db.users| {
      WrittenUserIs(db.users[i], q, ValidUsername(q.name) && !NameTaken(db.users, q.name, db.users[i].id),
                    GroupByID(db.groups, q.group).Some?, RangesFit(db.users, q.ranges, db.users[i].id));
      UserAfterSet(db.users, i, EditedUser(db, db.users[i], q).0, id);
    }
  }

  lemma GroupRequestsKeep(db: DB, r: Request, id: int)
    requires Started(db) && UserByID(db.users, id).Some? && !Concerns(db, r, id)
    requires r.CreateGroup? || r.EditGroup? || r.DeleteGroup?
    ensures Handle(db, r).db.users == db.users && KeepsQuota(db, Handle(db, r).db, UserByID(db.users, id).value.group)
  {
    var db' := Handle(db, r).db;
    var g := UserByID(db.users, id).value.group;
    assert HasMembers(db.users, g) by { assert db.users[UserIdx(db.users, id)].group == g; }
    if GroupByID(db.groups, g).Some? {
      match r
      case CreateGroup(_) => if db' != db { GroupAfterAppend(db.groups, db'.groups[|db.groups|], g); }
      case EditGroup(x, q) =>
        var i := GroupIdx(db.groups, x);
        if i < |db.groups| { GroupAfterSet(db.groups, i, db'.groups[i], g); }
      case DeleteGroup(x) => if db' != db { GroupAfterRemove(db, x, g); }
    }
  }

  lemma UserResetKeeps(db: DB, x: int, id: int)
    requires UserByID(db.users, id).Some? && x != id
    ensures KeepsUser(db, ResetUser(db, x), id) && ResetUser(db, x).groups == db.groups
  {
    var i := UserIdx(db.users, x);
    if i < |db.users| { UserAfterSet(db.users, i, db.users[i].(total := 0), id); }
  }

  lemma GroupResetKeeps(db: DB, g: int, id: int)
    requires UserByID(db.users, id).Some? && UserByID(db.users, id).value.group != g
    ensures KeepsUser(db, ResetGroup(db, g), id)
    ensures KeepsQuota(db, ResetGroup(db, g), UserByID(db.users, id).value.group)
  {
  }

  lemma {:induction false} BatchTables(db: DB, me: int, qs: seq<RuleReq>)
    ensures AppendRules(db, me, qs).users == db.users && AppendRules(db, me, qs).groups == db.groups
  {
    if qs != [] { BatchTables(db, me, qs[..|qs| - 1]); }
  }

  lemma RuleRequestsKeepTables(db: DB, r: Request)
    requires r.CreateRule? || r.EditRule? || r.DeleteRule? || r.EditSettings? || r.AddOwnRule? || r.AddOwnRules?
             || r.EditOwnRule? || r.DeleteOwnRule? || r.DeleteOwnRules?
    ensures Handle(db, r).db.users == db.users && Handle(db, r).db.groups == db.groups
  {
    if r.AddOwnRules? { BatchTables(db, r.me, r.rules); }
  }

  lemma UnconcernedStays(db: DB, r: Request, id: int)
    requires Started(db) && CutOff(db, id) && !Concerns(db, r, id)
    ensures CutOff(Handle(db, r).db, id)
  {
    if r.Register? || r.CreateUser? || r.EditUser? || r.DeleteUser? || r.SetPassword? {
      UserRequestsKeep(db, r, id);
    } else if r.CreateGroup? || r.EditGroup? || r.DeleteGroup? {
      GroupRequestsKeep(db, r, id);
    } else if r.ResetUserTotals? {
      UserResetKeeps(db, r.id, id);
    } else if r.ResetGroupTotals? {
      GroupResetKeeps(db, r.id, id);
    } else {
      RuleRequestsKeepTables(db, r);
    }
    KeptIsCutOff(db, Handle(db, r).db, id);
  }

  /** An edit of the user itself: only a new group counts. */
  lemma OwnEditDecides(db: DB, id: int, q: UserReq)
    requires CutOff(db, id)
    ensures var u := UserByID(db.users, id).value;
            CutOff(OnEditUser(db, id, q).db, id)
            <==> !(JoinsGroup(db, u, q) && !Reaches(u, GroupByID(db.groups, q.group).value))
  {
    var i := UserIdx(db.users, id);
    WrittenMembership(db, db.users[i], q);
    UserAfterSet(db.users, i, EditedUser(db, db.users[i], q).0, id);
    hide EditedUser, JoinsGroup, UserIdx, GroupIdx;
  }

  /** An edit of its group: only the new quota counts. */
  lemma GroupEditDecides(db: DB, id: int, g: int, q: GroupReq)
    requires CutOff(db, id) && g == UserByID(db.users, id).value.group
    ensures CutOff(OnEditGroup(db, g, q).db, id)
       <==> Reaches(UserByID(db.users, id).value, Group(g, q.name, q.mbps, q.quotaGB, q.enabled, 0))
  {
    var db' := OnEditGroup(db, g, q).db;
    var i := GroupIdx(db.groups, g);
    GroupAfterSet(db.groups, i, db'.groups[i], g);
    hide UserIdx, GroupIdx;
  }

  lemma RemovalDecides(db: DB, id: int, me: int)
    requires CutOff(db, id)
    ensures CutOff(OnDeleteUser(db, id, me).db, id) <==> id == me
  {
    if id != me {
      var kept := UsersWithout(db.users, id);
      assert UserIdx(kept, id) == |kept|;
    }
  }

  lemma UserResetLifts(db: DB, id: int)
    requires CutOff(db, id)
    ensures !CutOff(ResetUser(db, id), id)
  {
    var i := UserIdx(db.users, id);
    UserAfterSet(db.users, i, db.users[i].(total := 0), id);
    hide UserIdx;
  }

  lemma GroupResetLifts(db: DB, id: int)
    requires CutOff(db, id)
    ensures !CutOff(ResetGroup(db, UserByID(db.users, id).value.group), id)
  {
    var group := UserByID(db.users, id).value.group;
    ResetGroupKeeps(db, group);
    LookupsAfterTotals(db, ResetGroup(db, group), id);
    hide UserIdx, GroupIdx;
  }

  /** A request lifts a user's cut-off if and only if it is one of those. */
  lemma RequestKeepsCutOff(db: DB, r: Request, id: int)
    requires Started(db) && CutOff(db, id)
    ensures CutOff(Handle(db, r).db, id) <==> !RequestRelieves(db, r, id)
  {
    hide CutOff, Started, OnEditUser, OnEditGroup, OnDeleteUser, ResetUser, ResetGroup, JoinsGroup, Reaches;
    InGroup(db, id);
    if !Concerns(db, r, id) {
      UnconcernedStays(db, r, id);
    } else {
      match r
      case EditUser(_, q) => OwnEditDecides(db, id, q);
      case DeleteUser(_, me) => RemovalDecides(db, id, me);
      case ResetUserTotals(_) => UserResetLifts(db, id);
      case EditGroup(g, q) => GroupEditDecides(db, id, g, q);
      case ResetGroupTotals(_) => GroupResetLifts(db, id);
    }
  }

  lemma InGroup(db: DB, id: int)
    requires CutOff(db, id)
    ensures UserByID(db.users, id).Some? && GroupByID(db.groups, UserByID(db.users, id).value.group).Some?
  {
  }

  lemma SettleKeepsCutOff(db: DB, rule: int, user: int, group: int, n: nat, today: string, id: int)
    requires Started(db) && CutOff(db, id)
    ensures CutOff(Settle(db, rule, user, group, n, today), id)
  {
    var db' := Settle(db, rule, user, group, n, today);
    SettleKeeps(db, rule, user, group, n, today);
    LookupsAfterTotals(db, db', id);
    LookupsAfterTotals(db, db', UserByID(db.users, id).value.group);
    KeptIsCutOff(db, db', id);
  }

  /** Steps that lift the cut-off: such a request, or the store part of a reset of that user. */
  ghost predicate Relieves(s: State, e: Event, id: int) {
    match e
    case Serve(r) => RequestRelieves(s.db, r, id)
    case ClearTotals(t) => t < |s.tasks| && s.tasks[t].ClearingTotals? && s.tasks[t].user == id
    case _ => false
  }

  lemma ClearDecides(s: State, e: Event, id: int)
    requires TasksOk(s) && Enabled(s, e) && e.ClearTotals? && CutOff(s.db, id)
    ensures CutOff(Next(s, e).db, id) <==> s.tasks[e.t].user != id
  {
    var user := s.tasks[e.t].user;
    if user == id {
      UserResetLifts(s.db, id);
    } else {
      UserResetKeeps(s.db, user, id);
      KeptIsCutOff(s.db, ResetUser(s.db, user), id);
    }
    hide CutOff, ResetUser;
  }

  /** Of all steps of all threads, exactly these lift it. */
  lemma StepKeepsCutOff(s: State, e: Event, id: int)
    requires TasksOk(s) && Started(s.db) && Enabled(s, e) && CutOff(s.db, id)
    ensures CutOff(Next(s, e).db, id) <==> !Relieves(s, e, id)
  {
    hide CutOff, Handle, RequestRelieves, ResetUser, Settle, TaskOk;
    if e.Serve? {
      RequestKeepsCutOff(s.db, e.r, id);
    } else if e.Account? {
      var i, n := AccountIs(s, e);
      SettleKeepsCutOff(s.db, s.conns[i].rule, s.conns[i].user, s.conns[i].group, n, e.today, id);
    } else if e.ClearTotals? {
      ClearDecides(s, e, id);
    } else if !e.Register? && !e.Admit? {
      QuietStep(s, e);
    }
  }

  lemma {:induction false} StaysCutOff(states: seq<State>, events: seq<Event>, base: int, i: nat, j: nat, id: int)
    requires Trace(states, events) && Init(states[0], base) && i <= j < |states|
    requires CutOff(states[i].db, id)
    requires forall x :: i <= x < j ==> !Relieves(states[x], events[x], id)
    ensures CutOff(states[j].db, id)
  {
    if i < j {
      hide TasksOk, Enabled, Init, Trace, Next, CutOff, Relieves, Started;
      StaysCutOff(states, events, base, i, j - 1, id);
      StepAt(states, events, base, j - 1);
      StepKeepsCutOff(states[j - 1], events[j - 1], id);
    }
  }

  /** A user over quota stays cut off, and none of its rules lets new traffic in, until one of those steps. */
  lemma CutOffLasts(states: seq<State>, events: seq<Event>, base: int, i: nat, j: nat, id: int, p: Rule, now: int)
    requires Trace(states, events) && Init(states[0], base) && i <= j < |states|
    requires CutOff(states[i].db, id) && p.user == id
    requires forall x :: i <= x < j ==> !Relieves(states[x], events[x], id)
    ensures CutOff(states[j].db, id) && CanUse(states[j].db, p, now) != Allow
  {
    StaysCutOff(states, events, base, i, j, id);
    SameQuotaTest(states[j].db, p, now);
  }

  // ---------- what a flush does to the users it finds over quota ----------

  /** Thread `k` is killing the connections of user `id`, or has done so in this flush. */
  predicate Marked(k: Task, id: int) {
    || (k.Killing? && (k.user == id || id in k.found))
    || (k.Cutting? && id in k.found)
  }

  /** Nobody else touches a thread that is cutting off users. */
  lemma OthersKeepTask(s: State, e: Event, t: nat)
    requires TasksOk(s) && Enabled(s, e) && t < |s.tasks| && (s.tasks[t].Killing? || s.tasks[t].Cutting?)
    requires e != CutDone(t) && !(e.Look? && e.t == t) && !(e.Kill? && e.t == t)
    ensures t < |Next(s, e).tasks| && Next(s, e).tasks[t] == s.tasks[t]
  {
    hide TaskOk, Settle, ResetUser, Handle, OverQuota, UserByID, LiveConns;
  }

  lemma KillKeepsTask(s: State, e: Event, t: nat)
    requires TasksOk(s) && Enabled(s, e) && e.Kill? && e.t == t
    ensures var k, k' := s.tasks[t], Next(s, e).tasks[t];
            if k.left == [] then k' == Cutting(k.users, k.snapshot, k.found + {k.user}) else k' == k.(left := k.left[1..])
  {
    hide TaskOk;
  }

  lemma LookKeepsTask(s: State, e: Event, t: nat)
    requires TasksOk(s) && Enabled(s, e) && e.Look? && e.t == t
    ensures var k, k' := s.tasks[t], Next(s, e).tasks[t];
            if e.over then k' == Killing(k.users[0], k.snapshot, k.users[1..], k.snapshot, k.found)
            else k' == Cutting(k.users[1..], k.snapshot, k.found)
  {
    hide TaskOk, OverQuota, UserByID;
  }

  lemma StepKeepsMark(s: State, e: Event, t: nat, id: int)
    requires TasksOk(s) && Enabled(s, e) && t < |s.tasks| && Marked(s.tasks[t], id) && e != CutDone(t)
    ensures t < |Next(s, e).tasks| && Marked(Next(s, e).tasks[t], id)
  {
    var s' := Next(s, e);
    if e.Look? && e.t == t {
      LookKeepsTask(s, e, t);
    } else if e.Kill? && e.t == t {
      KillKeepsTask(s, e, t);
    } else {
      OthersKeepTask(s, e, t);
    }
    hide TasksOk, Enabled;
  }

  /** The flush of thread `t` looks at user `id`, who is over quota. */
  ghost predicate FindsOver(s: State, e: Event, t: nat, id: int) {
    && e.Look? && e.t == t && t < |s.tasks| && s.tasks[t].Cutting? && s.tasks[t].users != [] && s.tasks[t].users[0] == id
    && CutOff(s.db, id)
  }

  lemma LookMarks(s: State, e: Event, t: nat, id: int)
    requires TasksOk(s) && Enabled(s, e) && FindsOver(s, e, t, id)
    ensures t < |Next(s, e).tasks| && Marked(Next(s, e).tasks[t], id)
  {
    hide TaskOk, OverQuota, UserIdx;
  }

  lemma MarkedAt(states: seq<State>, events: seq<Event>, base: int, i: nat, t: nat, id: int)
    requires Trace(states, events) && Init(states[0], base) && i < |events|
    requires FindsOver(states[i], events[i], t, id)
             || (t < |states[i].tasks| && Marked(states[i].tasks[t], id) && events[i] != CutDone(t))
    ensures t < |states[i + 1].tasks| && Marked(states[i + 1].tasks[t], id)
  {
    StepAt(states, events, base, i);
    hide TasksOk, Enabled, Init, Trace, Next, Marked, FindsOver, Started;
    if FindsOver(states[i], events[i], t, id) {
      LookMarks(states[i], events[i], t, id);
    } else {
      StepKeepsMark(states[i], events[i], t, id);
    }
  }

  lemma {:induction false} MarkLasts(states: seq<State>, events: seq<Event>, base: int, i: nat, j: nat, t: nat, id: int)
    requires Trace(states, events) && Init(states[0], base) && i < j < |states|
    requires FindsOver(states[i], events[i], t, id)
    requires forall k :: i < k < j ==> events[k] != CutDone(t)
    ensures t < |states[j].tasks| && Marked(states[j].tasks[t], id)
  {
    assert |states| == |events| + 1;
    hide Init, Trace, Marked, FindsOver;
    if i < j - 1 {
      MarkLasts(states, events, base, i, j - 1, t, id);
    }
    MarkedAt(states, events, base, j - 1, t, id);
  }

  /** A flush that looks at a user who is over quota has killed every connection of that user in its snapshot by the
      time it moves on to the next user, and they stay killed while the flush lasts. */
  lemma FlushKillsWhomItFindsOver(states: seq<State>, events: seq<Event>, base: int, i: nat, j: nat, t: nat, id: int, x: nat)
    requires Trace(states, events) && Init(states[0], base) && i < j < |states|
    requires FindsOver(states[i], events[i], t, id)
    requires forall k :: i < k < j ==> events[k] != CutDone(t)
    requires t < |states[j].tasks| && states[j].tasks[t].Cutting? && x < |states[j].tasks[t].snapshot|
    ensures var c := states[j].tasks[t].snapshot[x];
            c < |states[j].conns| && (states[j].conns[c].user == id ==> states[j].conns[c].killed)
  {
    MarkLasts(states, events, base, i, j, t, id);
    FlushCutsOff(states, events, base, j, t, x);
  }

  /** The flush of thread `k` has dealt with user `id`, or still has it on its list. */
  predicate OnTheWay(k: Task, id: int) {
    Marked(k, id) || ((k.Cutting? || k.Killing?) && id in k.users)
  }

  lemma StepKeepsOnTheWay(s: State, e: Event, t: nat, id: int)
    requires TasksOk(s) && Enabled(s, e) && t < |s.tasks| && OnTheWay(s.tasks[t], id) && e != CutDone(t) && CutOff(s.db, id)
    ensures t < |Next(s, e).tasks| && OnTheWay(Next(s, e).tasks[t], id)
  {
    if e.Look? && e.t == t {
      LookKeepsOnTheWay(s, e, t, id);
    } else if e.Kill? && e.t == t {
      KillKeepsTask(s, e, t);
    } else {
      OthersKeepTask(s, e, t);
    }
  }

  lemma LookKeepsOnTheWay(s: State, e: Event, t: nat, id: int)
    requires TasksOk(s) && Enabled(s, e) && t < |s.tasks| && OnTheWay(s.tasks[t], id) && CutOff(s.db, id)
    requires e.Look? && e.t == t
    ensures t < |Next(s, e).tasks| && OnTheWay(Next(s, e).tasks[t], id)
  {
    var k := s.tasks[t];
    assert k.users == [k.users[0]] + k.users[1..];
    hide TaskOk, OverQuota, UserIdx;
  }

  lemma QueueDoneLists(s: State, e: Event, id: int)
    requires TasksOk(s) && Enabled(s, e) && e.QueueDone? && s.tasks[e.t].flush.Some? && CutOff(s.db, id)
    ensures e.t < |Next(s, e).tasks| && OnTheWay(Next(s, e).tasks[e.t], id)
  {
    hide TaskOk, OverQuota;
  }

  /** The flush of thread `t` has settled its snapshot and turns to the list of users. */
  ghost predicate ListsFlush(s: State, e: Event, t: nat) {
    e.QueueDone? && e.t == t && t < |s.tasks| && s.tasks[t].Settling? && s.tasks[t].flush.Some?
  }

  lemma ListedAtOnce(states: seq<State>, events: seq<Event>, base: int, i: nat, t: nat, id: int)
    requires Trace(states, events) && Init(states[0], base) && i < |events|
    requires ListsFlush(states[i], events[i], t) && CutOff(states[i].db, id)
    ensures t < |states[i + 1].tasks| && OnTheWay(states[i + 1].tasks[t], id)
  {
    StepAt(states, events, base, i);
    hide TasksOk, Enabled, Init, Trace, Next, OnTheWay, CutOff, Started;
    QueueDoneLists(states[i], events[i], id);
  }

  lemma OnTheWayAt(states: seq<State>, events: seq<Event>, base: int, i: nat, t: nat, id: int)
    requires Trace(states, events) && Init(states[0], base) && i < |events|
    requires t < |states[i].tasks| && OnTheWay(states[i].tasks[t], id) && events[i] != CutDone(t) && CutOff(states[i].db, id)
    ensures t < |states[i + 1].tasks| && OnTheWay(states[i + 1].tasks[t], id)
  {
    StepAt(states, events, base, i);
    hide TasksOk, Enabled, Init, Trace, Next, OnTheWay, CutOff, Started;
    StepKeepsOnTheWay(states[i], events[i], t, id);
  }

  lemma {:induction false} OnTheWayLasts(states: seq<State>, events: seq<Event>, base: int, i: nat, j: nat, t: nat, id: int)
    requires Trace(states, events) && Init(states[0], base) && i < j < |states|
    requires ListsFlush(states[i], events[i], t) && CutOff(states[i].db, id)
    requires forall k :: i <= k < j ==> !Relieves(states[k], events[k], id)
    requires forall k :: i <= k < j ==> events[k] != CutDone(t)
    ensures t < |states[j].tasks| && OnTheWay(states[j].tasks[t], id)
  {
    assert |states| == |events| + 1;
    hide Init, Trace, OnTheWay, CutOff, Relieves, ListsFlush;
    if i == j - 1 {
      ListedAtOnce(states, events, base, i, t, id);
    } else {
      OnTheWayLasts(states, events, base, i, j - 1, t, id);
      StaysCutOff(states, events, base, i, j - 1, id);
      OnTheWayAt(states, events, base, j - 1, t, id);
    }
  }

  /** A flush reaches every user: whoever is over quota when it turns to the users, and is not relieved meanwhile, has
      every connection of the snapshot killed when it ends. */
  lemma FlushReachesEveryUser(states: seq<State>, events: seq<Event>, base: int, i: nat, j: nat, t: nat, id: int, x: nat)
    requires Trace(states, events) && Init(states[0], base) && i < j < |events|
    requires ListsFlush(states[i], events[i], t) && CutOff(states[i].db, id)
    requires forall k :: i <= k < j ==> !Relieves(states[k], events[k], id)
    requires events[j] == CutDone(t) && forall k :: i <= k < j ==> events[k] != CutDone(t)
    ensures t < |states[j].tasks| && states[j].tasks[t].Cutting?
    ensures x < |states[j].tasks[t].snapshot| ==>
              var c := states[j].tasks[t].snapshot[x];
              c < |states[j].conns| && (states[j].conns[c].user == id ==> states[j].conns[c].killed)
  {
    OnTheWayLasts(states, events, base, i, j, t, id);
    assert Step(states[j], events[j], states[j + 1]);
    if x < |states[j].tasks[t].snapshot| {
      FlushCutsOff(states, events, base, j, t, x);
    }
  }
}
