/** Users, groups and rules: what each request does to the database (the handlers of api.go). */
module Registry {
  import opened Stores
  import opened Detection
  import opened Decimal

  // ---------- requests ----------

  /** A rule as posted. `targetOk` is the answer of validTarget on `target`. */
  datatype RuleReq = RuleReq(port: int, tcp: bool, udp: bool, target: string, targetOk: bool, allowed: Setting, enabled: bool)

  datatype UserReq = UserReq(name: string, password: string, group: int, enabled: bool, expireAt: int,
                             ranges: seq<PortRange>, note: string, role: Role)

  datatype GroupReq = GroupReq(name: string, mbps: int, quotaGB: int, enabled: bool)

  /** `me` is the user the session belongs to. */
  datatype Request =
    | Register(name: string, password: string)
    | CreateUser(user: UserReq)
    | EditUser(id: int, user: UserReq)
    | DeleteUser(id: int, me: int)
    | SetPassword(id: int, password: string)
    | ResetUserTotals(id: int)
    | CreateGroup(group: GroupReq)
    | EditGroup(id: int, group: GroupReq)
    | DeleteGroup(id: int)
    | ResetGroupTotals(id: int)
    | CreateRule(owner: int, rule: RuleReq)
    | EditRule(id: int, owner: int, rule: RuleReq)
    | DeleteRule(id: int)
    | EditSettings(settings: Settings)
    | AddOwnRule(me: int, rule: RuleReq)
    | AddOwnRules(me: int, rules: seq<RuleReq>)
    | EditOwnRule(me: int, id: int, rule: RuleReq)
    | DeleteOwnRule(me: int, id: int)
    | DeleteOwnRules(me: int, ids: seq<int>)

  datatype Reply = Reply(db: DB, ok: bool)

  // ---------- checks ----------

  predicate ValidUsername(name: string) {
    && 3 <= |name| <= 32
    && forall i :: 0 <= i < |name| ==>
         var c := name[i]; 'a' <= c <= 'z' || 'A' <= c <= 'Z' || '0' <= c <= '9' || c == '_'
  }

  predicate ValidPortNum(rules: seq<Rule>, port: int) {
    1 <= port <= 65535 && RuleByPort(rules, port).None?
  }

  predicate Overlap(a: PortRange, b: PortRange) {
    a.start <= b.end && b.start <= a.end
  }

  predicate ValidRange(r: PortRange) {
    1 <= r.start <= r.end <= 65535
  }

  predicate ClashesWith(r: PortRange, others: seq<PortRange>) {
    exists i :: 0 <= i < |others| && Overlap(r, others[i])
  }

  /** May `ranges` be given to a user, when the ranges of user `exclude` are about to be replaced? */
  predicate RangesFit(users: seq<User>, ranges: seq<PortRange>, exclude: int) {
    forall i :: 0 <= i < |ranges| ==>
      && ValidRange(ranges[i])
      && !ClashesWith(ranges[i], ranges[..i])
      && forall k :: 0 <= k < |users| && users[k].id != exclude ==> !ClashesWith(ranges[i], users[k].ranges)
  }

  // ---------- removals ----------

  function UsersWithout(users: seq<User>, id: int): (r: seq<User>)
    ensures forall u :: u in r <==> u in users && u.id != id
  {
    if users == [] then []
    else
      var u := users[|users| - 1];
      UsersWithout(users[..|users| - 1], id) + (if u.id != id then [u] else [])
  }

  function GroupsWithout(groups: seq<Group>, id: int): (r: seq<Group>)
    ensures forall g :: g in r <==> g in groups && g.id != id
  {
    if groups == [] then []
    else
      var g := groups[|groups| - 1];
      GroupsWithout(groups[..|groups| - 1], id) + (if g.id != id then [g] else [])
  }

  function RulesWithout(rules: seq<Rule>, ids: set<int>): (r: seq<Rule>)
    ensures forall p :: p in r <==> p in rules && p.id !in ids
  {
    if rules == [] then []
    else
      var p := rules[|rules| - 1];
      RulesWithout(rules[..|rules| - 1], ids) + (if p.id !in ids then [p] else [])
  }

  function RulesNotOf(rules: seq<Rule>, user: int): (r: seq<Rule>)
    ensures forall p :: p in r <==> p in rules && p.user != user
  {
    if rules == [] then []
    else
      var p := rules[|rules| - 1];
      RulesNotOf(rules[..|rules| - 1], user) + (if p.user != user then [p] else [])
  }

  function KeysOf(ids: set<int>): set<string> {
    set i | i in ids :: Print(i)
  }

  function IdsOf(rules: seq<Rule>, user: int): set<int> {
    set i | 0 <= i < |rules| && rules[i].user == user :: rules[i].id
  }

  // ---------- the handlers ----------

  function NewUser(db: DB, name: string, password: string, role: Role, group: int, enabled: bool, expireAt: int,
                   ranges: seq<PortRange>, note: string): DB {
    db.(seqNo := db.seqNo + 1,
        users := db.users + [User(db.seqNo + 1, name, password, role, group, enabled, expireAt, ranges, note, 0)])
  }

  function OnRegister(db: DB, name: string, password: string): Reply {
    if !db.settings.allowRegister || !ValidUsername(name) || |password| < 6 || UserByName(db.users, name).Some?
       || GroupByID(db.groups, db.settings.defaultGroup).None? then Reply(db, false)
    else Reply(NewUser(db, name, password, Member, db.settings.defaultGroup, true, 0, [], ""), true)
  }

  function OnCreateUser(db: DB, q: UserReq): Reply {
    if !ValidUsername(q.name) || |q.password| < 6 || UserByName(db.users, q.name).Some?
       || GroupByID(db.groups, q.group).None? || !RangesFit(db.users, q.ranges, 0) then Reply(db, false)
    else
      var role := if q.role.OtherRole? then Member else q.role;
      Reply(NewUser(db, q.name, q.password, role, q.group, q.enabled, q.expireAt, q.ranges, q.note), true)
  }

  predicate NameTaken(users: seq<User>, name: string, id: int) {
    var other := UserByName(users, name);
    other.Some? && other.value.id != id
  }

  /** What an edit leaves in the user's record, and whether it is accepted. A request that is refused at one check
      has already written the fields of the checks before it. */
  function EditedUser(db: DB, u: User, q: UserReq): (User, bool) {
    WriteUser(u, q, ValidUsername(q.name) && !NameTaken(db.users, q.name, u.id), GroupByID(db.groups, q.group).Some?,
              RangesFit(db.users, q.ranges, u.id))
  }

  /** The same, once the answers of the checks against the database are known. */
  function WriteUser(u: User, q: UserReq, nameOk: bool, groupOk: bool, rangesOk: bool): (User, bool) {
    if q.name != "" && !nameOk then (u, false)
    else
      var u := if q.name != "" then u.(name := q.name) else u;
      if q.password != "" && |q.password| < 6 then (u, false)
      else
        var u := if q.password != "" then u.(password := q.password) else u;
        if q.group > 0 && !groupOk then (u, false)
        else
          var u := if q.group > 0 then u.(group := q.group) else u;
          if !rangesOk then (u, false)
          else
            var u := if q.role.OtherRole? then u else u.(role := q.role);
            (u.(enabled := q.enabled, expireAt := q.expireAt, ranges := q.ranges, note := q.note), true)
  }

  function OnEditUser(db: DB, id: int, q: UserReq): Reply {
    var i := UserIdx(db.users, id);
    if i == |db.users| then Reply(db, false)
    else
      var (u, ok) := EditedUser(db, db.users[i], q);
      Reply(db.(users := db.users[i := u]), ok)
  }

  function OnDeleteUser(db: DB, id: int, me: int): Reply {
    if UserByID(db.users, id).None? || id == me then Reply(db, false)
    else Reply(db.(rules := RulesNotOf(db.rules, id), users := UsersWithout(db.users, id),
                   realmPorts := db.realmPorts - KeysOf(IdsOf(db.rules, id))), true)
  }

  function OnSetPassword(db: DB, id: int, password: string): Reply {
    var i := UserIdx(db.users, id);
    if i == |db.users| || |password| < 6 then Reply(db, false)
    else Reply(db.(users := db.users[i := db.users[i].(password := password)]), true)
  }

  function OnCreateGroup(db: DB, q: GroupReq): Reply {
    if q.name == "" then Reply(db, false)
    else Reply(db.(seqNo := db.seqNo + 1,
                   groups := db.groups + [Group(db.seqNo + 1, q.name, q.mbps, q.quotaGB, q.enabled, 0)]), true)
  }

  function OnEditGroup(db: DB, id: int, q: GroupReq): Reply {
    var i := GroupIdx(db.groups, id);
    if i == |db.groups| then Reply(db, false)
    else
      var g := db.groups[i];
      var name := if q.name != "" then q.name else g.name;
      Reply(db.(groups := db.groups[i := Group(g.id, name, q.mbps, q.quotaGB, q.enabled, g.total)]), true)
  }

  predicate HasMembers(users: seq<User>, group: int) {
    exists i :: 0 <= i < |users| && users[i].group == group
  }

  function OnDeleteGroup(db: DB, id: int): Reply {
    if GroupByID(db.groups, id).None? || HasMembers(db.users, id) then Reply(db, false)
    else Reply(db.(groups := GroupsWithout(db.groups, id)), true)
  }

  function NewRule(db: DB, owner: int, q: RuleReq, enabled: bool): DB {
    db.(seqNo := db.seqNo + 1,
        rules := db.rules + [Rule(db.seqNo + 1, owner, q.port, q.tcp, q.udp, q.target, q.allowed, enabled, 0)])
  }

  predicate GoodRuleReq(ranges: seq<PortRange>, q: RuleReq) {
    InRange(ranges, q.port) && (q.tcp || q.udp) && q.targetOk && ValidAllowed(q.allowed)
  }

  function OnCreateRule(db: DB, owner: int, q: RuleReq): Reply {
    var u := UserByID(db.users, owner);
    if !ValidPortNum(db.rules, q.port) || u.None? || !GoodRuleReq(u.value.ranges, q) then Reply(db, false)
    else Reply(NewRule(db, owner, q, q.enabled), true)
  }

  /** What an administrator's edit leaves in the rule; earlier fields stay written when a later check refuses. The new
      owner's ranges are checked against the number as already written. */
  function EditedRule(db: DB, p: Rule, owner: int, q: RuleReq): (Rule, bool) {
    var u := UserByID(db.users, owner);
    WriteRule(p, owner, q, ValidPortNum(db.rules, q.port),
              u.Some? && InRange(u.value.ranges, if q.port > 0 then q.port else p.port))
  }

  function WriteRule(p: Rule, owner: int, q: RuleReq, portOk: bool, ownerOk: bool): (Rule, bool) {
    if q.port > 0 && q.port != p.port && !portOk then (p, false)
    else
      var p := if q.port > 0 then p.(port := q.port) else p;
      if owner > 0 && owner != p.user && !ownerOk then (p, false)
      else
        var p := if owner > 0 then p.(user := owner) else p;
        EditedBody(p, q)
  }

  /** The part that an administrator's edit and the owner's edit have in common. */
  function EditedBody(p: Rule, q: RuleReq): (Rule, bool) {
    if (!q.tcp && !q.udp) || (q.target != "" && !q.targetOk) then (p, false)
    else
      var p := if q.target != "" then p.(target := q.target) else p;
      var p := if ValidAllowed(q.allowed) then p.(allowed := q.allowed) else p;
      (p.(tcp := q.tcp, udp := q.udp, enabled := q.enabled), true)
  }

  function OnEditRule(db: DB, id: int, owner: int, q: RuleReq): Reply {
    var i := RuleIdx(db.rules, id);
    if i == |db.rules| then Reply(db, false)
    else
      var (p, ok) := EditedRule(db, db.rules[i], owner, q);
      Reply(db.(rules := db.rules[i := p]), ok)
  }

  function DropRules(db: DB, ids: set<int>): DB {
    db.(rules := RulesWithout(db.rules, ids), realmPorts := db.realmPorts - KeysOf(ids))
  }

  function OnDeleteRule(db: DB, id: int): Reply {
    if RuleByID(db.rules, id).None? then Reply(db, false) else Reply(DropRules(db, {id}), true)
  }

  function OnEditSettings(db: DB, s: Settings): Reply {
    if s.mode.OtherMode? || (s.defaultGroup > 0 && GroupByID(db.groups, s.defaultGroup).None?) then
      Reply(db, false)
    else
      var limit := if s.recordsLimit < 100 || s.recordsLimit > 20000 then 3000 else s.recordsLimit;
      Reply(db.(settings := s.(recordsLimit := limit)), true)
  }

  /** A user's own post: the rule is always enabled. */
  function OnAddOwnRule(db: DB, me: int, q: RuleReq): Reply {
    var u := UserByID(db.users, me);
    if u.None? || !ValidPortNum(db.rules, q.port) || !GoodRuleReq(u.value.ranges, q) then Reply(db, false)
    else Reply(NewRule(db, me, q, true), true)
  }

  /** The check of a batch: every line against the rules there were before, and against the lines above it. */
  predicate BatchFits(rules: seq<Rule>, ranges: seq<PortRange>, qs: seq<RuleReq>) {
    forall i :: 0 <= i < |qs| ==>
      && ValidPortNum(rules, qs[i].port)
      && (forall j :: 0 <= j < i ==> qs[j].port != qs[i].port)
      && GoodRuleReq(ranges, qs[i])
  }

  function AppendRules(db: DB, owner: int, qs: seq<RuleReq>): DB {
    if qs == [] then db
    else NewRule(AppendRules(db, owner, qs[..|qs| - 1]), owner, qs[|qs| - 1], qs[|qs| - 1].enabled)
  }

  function OnAddOwnRules(db: DB, me: int, qs: seq<RuleReq>): Reply {
    var u := UserByID(db.users, me);
    if u.None? || !(1 <= |qs| <= 200) || !BatchFits(db.rules, u.value.ranges, qs) then Reply(db, false)
    else Reply(AppendRules(db, me, qs), true)
  }

  function OnEditOwnRule(db: DB, me: int, id: int, q: RuleReq): Reply {
    var i := RuleIdx(db.rules, id);
    if UserByID(db.users, me).None? || i == |db.rules| || db.rules[i].user != me then Reply(db, false)
    else
      var (p, ok) := EditedBody(db.rules[i], q);
      Reply(db.(rules := db.rules[i := p]), ok)
  }

  predicate Owns(rules: seq<Rule>, me: int, id: int) {
    var p := RuleByID(rules, id);
    p.Some? && p.value.user == me
  }

  function OnDeleteOwnRule(db: DB, me: int, id: int): Reply {
    if UserByID(db.users, me).None? || !Owns(db.rules, me, id) then Reply(db, false) else Reply(DropRules(db, {id}), true)
  }

  function OnDeleteOwnRules(db: DB, me: int, ids: seq<int>): Reply {
    if UserByID(db.users, me).None? || !(1 <= |ids| <= 200) || (exists i :: 0 <= i < |ids| && !Owns(db.rules, me, ids[i])) then
      Reply(db, false)
    else Reply(DropRules(db, set i | 0 <= i < |ids| :: ids[i]), true)
  }

  function Handle(db: DB, r: Request): Reply {
    match r
    case Register(name, password) => OnRegister(db, name, password)
    case CreateUser(q) => OnCreateUser(db, q)
    case EditUser(id, q) => OnEditUser(db, id, q)
    case DeleteUser(id, me) => OnDeleteUser(db, id, me)
    case SetPassword(id, password) => OnSetPassword(db, id, password)
    case ResetUserTotals(id) => Reply(ResetUser(db, id), UserByID(db.users, id).Some?)
    case CreateGroup(q) => OnCreateGroup(db, q)
    case EditGroup(id, q) => OnEditGroup(db, id, q)
    case DeleteGroup(id) => OnDeleteGroup(db, id)
    case ResetGroupTotals(id) =>
      if GroupByID(db.groups, id).None? then Reply(db, false) else Reply(ResetGroup(db, id), true)
    case CreateRule(owner, q) => OnCreateRule(db, owner, q)
    case EditRule(id, owner, q) => OnEditRule(db, id, owner, q)
    case DeleteRule(id) => OnDeleteRule(db, id)
    case EditSettings(s) => OnEditSettings(db, s)
    case AddOwnRule(me, q) => OnAddOwnRule(db, me, q)
    case AddOwnRules(me, qs) => OnAddOwnRules(db, me, qs)
    case EditOwnRule(me, id, q) => OnEditOwnRule(db, me, id, q)
    case DeleteOwnRule(me, id) => OnDeleteOwnRule(db, me, id)
    case DeleteOwnRules(me, ids) => OnDeleteOwnRules(db, me, ids)
  }

  function After(db: DB, rs: seq<Request>): DB {
    if rs == [] then db else Handle(After(db, rs[..|rs| - 1]), rs[|rs| - 1]).db
  }
}
