/** Which requests are accepted, and what a refused one may leave behind (the handlers of api.go). */
module Answers {
  import opened Stores
  import opened Detection
  import opened Decimal
  import opened Registry
  import opened Soundness

  // ---------- ranges ----------

  predicate Holds(r: PortRange, port: int) {
    r.start <= port <= r.end
  }

  /** No port lies in two of the ranges. */
  ghost predicate NoneTwice(rs: seq<PortRange>) {
    forall i, j, port :: 0 <= i < j < |rs| && Holds(rs[i], port) ==> !Holds(rs[j], port)
  }

  /** No port lies in both lists. */
  ghost predicate NoneShared(a: seq<PortRange>, b: seq<PortRange>) {
    forall i, j, port :: 0 <= i < |a| && 0 <= j < |b| && Holds(a[i], port) ==> !Holds(b[j], port)
  }

  /** Two ranges overlap exactly when some port lies in both, provided neither is reversed. */
  lemma SharedPort(a: PortRange, b: PortRange)
    requires a.start <= a.end && b.start <= b.end
    ensures Overlap(a, b) <==> exists port :: Holds(a, port) && Holds(b, port)
  {
    if Overlap(a, b) {
      var port := if a.start < b.start then b.start else a.start;
      assert Holds(a, port) && Holds(b, port);
    }
  }

  lemma ApartMeansNoneShared(a: seq<PortRange>, b: seq<PortRange>)
    requires (forall i :: 0 <= i < |a| ==> ValidRange(a[i])) && (forall j :: 0 <= j < |b| ==> ValidRange(b[j]))
    ensures Apart(a, b) <==> NoneShared(a, b)
  {
    forall i, j | 0 <= i < |a| && 0 <= j < |b|
      ensures Overlap(a[i], b[j]) <==> exists port :: Holds(a[i], port) && Holds(b[j], port)
    {
      SharedPort(a[i], b[j]);
    }
  }

  lemma OverlapMeansTwice(rs: seq<PortRange>)
    requires forall i :: 0 <= i < |rs| ==> ValidRange(rs[i])
    ensures (forall i, j :: 0 <= i < j < |rs| ==> !Overlap(rs[j], rs[i])) <==> NoneTwice(rs)
  {
    forall i, j | 0 <= i < j < |rs|
      ensures Overlap(rs[j], rs[i]) <==> exists port :: Holds(rs[j], port) && Holds(rs[i], port)
    {
      SharedPort(rs[j], rs[i]);
    }
  }

  /** The three loops of the check, as one statement about pairs of ranges. */
  lemma FitsByPairs(users: seq<User>, rs: seq<PortRange>, exclude: int)
    ensures RangesFit(users, rs, exclude)
       <==> (forall i :: 0 <= i < |rs| ==> ValidRange(rs[i]))
            && (forall i, j :: 0 <= i < j < |rs| ==> !Overlap(rs[j], rs[i]))
            && (forall k :: 0 <= k < |users| && users[k].id != exclude ==> Apart(rs, users[k].ranges))
  {
    forall i, j | 0 <= i < j < |rs| && !ClashesWith(rs[j], rs[..j]) ensures !Overlap(rs[j], rs[i]) {
      assert rs[..j][i] == rs[i];
    }
  }

  /** A list of ranges is accepted exactly when it is well formed and none of its ports is in it twice or belongs to
      another user. */
  lemma RangesFitMeaning(users: seq<User>, rs: seq<PortRange>, exclude: int)
    requires Ranges(users)
    ensures RangesFit(users, rs, exclude)
       <==> (forall i :: 0 <= i < |rs| ==> ValidRange(rs[i])) && NoneTwice(rs)
            && (forall k :: 0 <= k < |users| && users[k].id != exclude ==> NoneShared(rs, users[k].ranges))
  {
    FitsByPairs(users, rs, exclude);
    if forall i :: 0 <= i < |rs| ==> ValidRange(rs[i]) {
      OverlapMeansTwice(rs);
      forall k | 0 <= k < |users| ensures Apart(rs, users[k].ranges) <==> NoneShared(rs, users[k].ranges) {
        ApartMeansNoneShared(rs, users[k].ranges);
      }
    }
  }

  // ---------- refused requests ----------

  /** A refused request changes nothing, unless it is an administrator's edit of a user or a rule. */
  lemma RefusedChangesNothing(db: DB, r: Request)
    requires !Handle(db, r).ok && !r.EditUser? && !r.EditRule?
    ensures Handle(db, r).db == db
  {
    match r
    case EditOwnRule(me, id, q) =>
      var i := RuleIdx(db.rules, id);
      if i < |db.rules| { assert db.rules[i := db.rules[i]] == db.rules; }
    case _ =>
  }

  /** What an edit of a user needs, check by check. */
  predicate UserEditOk(db: DB, u: User, q: UserReq) {
    && (q.name == "" || (ValidUsername(q.name) && !NameTaken(db.users, q.name, u.id)))
    && (q.password == "" || |q.password| >= 6)
    && (q.group <= 0 || GroupByID(db.groups, q.group).Some?)
    && RangesFit(db.users, q.ranges, u.id)
  }

  /** An edit is accepted exactly when every check passes; then the user is as asked, where an empty name or password, a
      group of 0 or less, and an unknown role mean no change. */
  lemma EditUserAccepted(db: DB, u: User, q: UserReq)
    ensures EditedUser(db, u, q).1 <==> UserEditOk(db, u, q)
    ensures UserEditOk(db, u, q) ==>
              EditedUser(db, u, q).0 == User(u.id, if q.name == "" then u.name else q.name,
                                             if q.password == "" then u.password else q.password,
                                             if q.role.OtherRole? then u.role else q.role,
                                             if q.group <= 0 then u.group else q.group,
                                             q.enabled, q.expireAt, q.ranges, q.note, u.total)
  {
    hide RangesFit, ValidUsername, NameTaken, GroupByID;
  }

  /** A refused edit leaves at most a new name, password and group, in this order, each one that passed its check. */
  lemma EditUserRefused(db: DB, u: User, q: UserReq)
    requires !EditedUser(db, u, q).1
    ensures var v := EditedUser(db, u, q).0;
            && v == u.(name := v.name, password := v.password, group := v.group)
            && (v.group != u.group ==> v.group == q.group && GroupByID(db.groups, q.group).Some?
                                       && (q.password == "" || v.password == q.password))
            && (v.password != u.password ==> v.password == q.password && |q.password| >= 6 && (q.name == "" || v.name == q.name))
            && (v.name != u.name ==> v.name == q.name && ValidUsername(q.name) && !NameTaken(db.users, q.name, u.id))
  {
    hide RangesFit, ValidUsername, NameTaken, GroupByID;
  }

  /** What an administrator's edit of a rule needs. */
  predicate RuleEditOk(db: DB, p: Rule, owner: int, q: RuleReq) {
    && (q.port <= 0 || q.port == p.port || ValidPortNum(db.rules, q.port))
    && (owner <= 0 || owner == p.user
        || (UserByID(db.users, owner).Some?
            && InRange(UserByID(db.users, owner).value.ranges, if q.port > 0 then q.port else p.port)))
    && (q.tcp || q.udp) && (q.target == "" || q.targetOk)
  }

  lemma EditRuleAccepted(db: DB, p: Rule, owner: int, q: RuleReq)
    ensures EditedRule(db, p, owner, q).1 <==> RuleEditOk(db, p, owner, q)
    ensures RuleEditOk(db, p, owner, q) ==>
              EditedRule(db, p, owner, q).0
              == Rule(p.id, if owner > 0 then owner else p.user, if q.port > 0 then q.port else p.port, q.tcp, q.udp,
                      if q.target == "" then p.target else q.target, if ValidAllowed(q.allowed) then q.allowed else p.allowed,
                      q.enabled, p.total)
  {
    hide ValidPortNum, UserByID, InRange;
  }

  /** A refused edit leaves at most a new number and a new owner, and a new owner only with the number that was asked. */
  lemma EditRuleRefused(db: DB, p: Rule, owner: int, q: RuleReq)
    requires !EditedRule(db, p, owner, q).1
    ensures var v := EditedRule(db, p, owner, q).0;
            && v == p.(port := v.port, user := v.user)
            && (v.port != p.port ==> v.port == q.port && ValidPortNum(db.rules, q.port))
            && (v.user != p.user ==> v.user == owner && UserByID(db.users, owner).Some?
                                     && InRange(UserByID(db.users, owner).value.ranges, v.port)
                                     && (q.port > 0 ==> v.port == q.port))
  {
    hide ValidPortNum, UserByID, InRange;
  }

  // ---------- what an edit writes, whether or not it is accepted ----------

  predicate WritesNumber(db: DB, p: Rule, q: RuleReq) {
    q.port > 0 && q.port != p.port && ValidPortNum(db.rules, q.port)
  }

  /** The check of the number passes, and the new owner exists and has the rule's number, as asked, in its ranges. */
  predicate HandsOver(db: DB, p: Rule, owner: int, q: RuleReq) {
    && (q.port <= 0 || q.port == p.port || ValidPortNum(db.rules, q.port))
    && owner > 0 && owner != p.user && UserByID(db.users, owner).Some?
    && InRange(UserByID(db.users, owner).value.ranges, if q.port > 0 then q.port else p.port)
  }

  /** The same once the answers of the two checks are known. */
  lemma WrittenByChecks(p: Rule, owner: int, q: RuleReq, portOk: bool, ownerOk: bool)
    ensures var v := WriteRule(p, owner, q, portOk, ownerOk).0;
            var passes := q.port <= 0 || q.port == p.port || portOk;
            && v.id == p.id && v.total == p.total
            && v.port == (if q.port > 0 && passes then q.port else p.port)
            && v.user == (if passes && owner > 0 && owner != p.user && ownerOk then owner else p.user)
  {
    var p1 := if q.port > 0 then p.(port := q.port) else p;
    var p2 := if owner > 0 then p1.(user := owner) else p1;
    EditedBodyIs(p2, q);
    hide EditedBody;
  }

  /** Number and owner after an edit of a rule, decided by their own checks alone. */
  lemma WrittenPlace(db: DB, p: Rule, owner: int, q: RuleReq)
    ensures var v := EditedRule(db, p, owner, q).0;
            && v.id == p.id && v.total == p.total
            && v.port == (if WritesNumber(db, p, q) then q.port else p.port)
            && v.user == (if HandsOver(db, p, owner, q) then owner else p.user)
  {
    var u := UserByID(db.users, owner);
    WrittenByChecks(p, owner, q, ValidPortNum(db.rules, q.port),
                    u.Some? && InRange(u.value.ranges, if q.port > 0 then q.port else p.port));
    hide ValidPortNum, UserByID, InRange, WriteRule;
  }

  /** The checks of name and password pass, and the new group exists. */
  predicate JoinsGroup(db: DB, u: User, q: UserReq) {
    && (q.name == "" || (ValidUsername(q.name) && !NameTaken(db.users, q.name, u.id)))
    && (q.password == "" || |q.password| >= 6)
    && q.group > 0 && q.group != u.group && GroupByID(db.groups, q.group).Some?
  }

  /** Group and ranges after an edit of a user: the group by the checks before it, the ranges only if all pass. */
  lemma WrittenMembership(db: DB, u: User, q: UserReq)
    ensures var v := EditedUser(db, u, q).0;
            && v.id == u.id && v.total == u.total
            && v.group == (if JoinsGroup(db, u, q) then q.group else u.group)
            && v.ranges == (if UserEditOk(db, u, q) then q.ranges else u.ranges)
  {
    hide RangesFit, ValidUsername, NameTaken, GroupByID;
  }

  // ---------- internal ports of rules that are gone ----------

  ghost predicate IdIn(rules: seq<Rule>, id: int) {
    exists i :: 0 <= i < |rules| && rules[i].id == id
  }

  predicate Deletes(r: Request) {
    r.DeleteUser? || r.DeleteRule? || r.DeleteOwnRule? || r.DeleteOwnRules?
  }

  lemma OthersKeepIds(db: DB, r: Request)
    requires !Deletes(r)
    ensures var db' := Handle(db, r).db;
            |db.rules| <= |db'.rules| && forall i :: 0 <= i < |db.rules| ==> db'.rules[i].id == db.rules[i].id
  {
    hide RangesFit, UserIdx, NameIdx, GroupIdx;
    match r
    case AddOwnRules(me, qs) => AppendedPorts(db, me, qs);
    case EditRule(id, owner, q) =>
      var i := RuleIdx(db.rules, id);
      if i < |db.rules| { WrittenPlace(db, db.rules[i], owner, q); }
    case EditOwnRule(me, id, q) =>
      var i := RuleIdx(db.rules, id);
      if i < |db.rules| { EditedBodyIs(db.rules[i], q); }
    case ResetUserTotals(id) => ResetUserKeeps(db, id);
    case ResetGroupTotals(id) => ResetGroupKeeps(db, id);
    case _ =>
  }

  lemma OthersKeepRule(db: DB, r: Request, i: nat)
    requires !Deletes(r) && i < |db.rules|
    ensures IdIn(Handle(db, r).db.rules, db.rules[i].id)
  {
    OthersKeepIds(db, r);
    assert Handle(db, r).db.rules[i].id == db.rules[i].id;
  }

  lemma DeletedRules(db: DB, r: Request, p: Rule)
    requires Deletes(r) && p in db.rules && p !in Handle(db, r).db.rules
    ensures Print(p.id) !in Handle(db, r).db.realmPorts
  {
    hide Print;
    var i :| 0 <= i < |db.rules| && db.rules[i] == p;
    match r
    case DeleteUser(id, me) => assert p.id in IdsOf(db.rules, id);
    case DeleteRule(id) =>
    case DeleteOwnRule(me, id) =>
    case DeleteOwnRules(me, ids) => assert p.id in set k | 0 <= k < |ids| :: ids[k];
  }

  /** Whichever request removes a rule also releases its internal port. */
  lemma GoneRulesHoldNoPort(db: DB, r: Request, p: Rule)
    requires p in db.rules && !IdIn(Handle(db, r).db.rules, p.id)
    ensures Print(p.id) !in Handle(db, r).db.realmPorts
  {
    var i :| 0 <= i < |db.rules| && db.rules[i] == p;
    if Deletes(r) {
      assert p !in Handle(db, r).db.rules;
      DeletedRules(db, r, p);
    } else {
      OthersKeepRule(db, r, i);
    }
  }
}
