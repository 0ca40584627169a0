/** The handlers of api.go as they run: checks in order, fields written one by one, lists rebuilt in loops. */
module Api {
  import opened Stores
  import opened Detection
  import opened Decimal
  import opened Registry
  import opened RuleLife

  /** The handlers share the store. Each is one atomic operation; saving is taken to succeed. */
  class App {
    const store: Store

    constructor (store: Store)
      ensures this.store == store
    {
      this.store := store;
    }

    // ---------- checks ----------

    method PortNumIsValid(port: int) returns (ok: bool)
      ensures ok <==> ValidPortNum(store.rules, port)
    {
      if port < 1 || port > 65535 {
        return false;
      }
      var i := store.FindPort(port);
      return i == |store.rules|;
    }

    method ValidateUserRanges(ranges: seq<PortRange>, exclude: int) returns (ok: bool)
      ensures ok <==> RangesFit(store.users, ranges, exclude)
    {
      var i := 0;
      while i < |ranges|
        invariant 0 <= i <= |ranges|
        invariant forall j :: 0 <= j < i ==> RangeFits(store.users, ranges, exclude, j)
      {
        var r := ranges[i];
        if r.start < 1 || r.end > 65535 || r.start > r.end {
          return false;
        }
        var clash := Clashes(r, ranges[..i]);
        if clash {
          return false;
        }
        var k := 0;
        while k < |store.users|
          invariant 0 <= k <= |store.users|
          invariant forall x :: 0 <= x < k && store.users[x].id != exclude ==> !ClashesWith(r, store.users[x].ranges)
        {
          if store.users[k].id != exclude {
            clash := Clashes(r, store.users[k].ranges);
            if clash {
              return false;
            }
          }
          k := k + 1;
        }
        i := i + 1;
      }
      RangesFitIs(store.users, ranges, exclude);
      return true;
    }

    /** The inner loops of validateUserRanges. */
    method Clashes(r: PortRange, others: seq<PortRange>) returns (clash: bool)
      ensures clash <==> ClashesWith(r, others)
    {
      var j := 0;
      while j < |others|
        invariant 0 <= j <= |others| && forall x :: 0 <= x < j ==> !Overlap(r, others[x])
      {
        if Overlap(r, others[j]) {
          return true;
        }
        j := j + 1;
      }
      return false;
    }

    method NumberInRanges(ranges: seq<PortRange>, port: int) returns (ok: bool)
      ensures ok <==> InRange(ranges, port)
    {
      var i := 0;
      while i < |ranges|
        invariant 0 <= i <= |ranges| && forall j :: 0 <= j < i ==> !(ranges[j].start <= port <= ranges[j].end)
      {
        if ranges[i].start <= port <= ranges[i].end {
          return true;
        }
        i := i + 1;
      }
      return false;
    }

    method RuleReqIsGood(ranges: seq<PortRange>, q: RuleReq) returns (ok: bool)
      ensures ok <==> GoodRuleReq(ranges, q)
    {
      var inside := NumberInRanges(ranges, q.port);
      return inside && (q.tcp || q.udp) && q.targetOk && ValidAllowed(q.allowed);
    }

    // ---------- users ----------

    method Append(name: string, password: string, role: Role, group: int, enabled: bool, expireAt: int,
                  ranges: seq<PortRange>, note: string)
      modifies store`seqNo, store`users
      ensures store.View() == NewUser(old(store.View()), name, password, role, group, enabled, expireAt, ranges, note)
    {
      var id := store.NextID();
      store.users := store.users + [User(id, name, password, role, group, enabled, expireAt, ranges, note, 0)];
    }

    method Register(name: string, password: string) returns (ok: bool)
      modifies store
      ensures Reply(store.View(), ok) == OnRegister(old(store.View()), name, password)
    {
      if !store.settings.allowRegister || !ValidUsername(name) || |password| < 6 {
        return false;
      }
      var i := store.FindName(name);
      if i < |store.users| {
        return false;
      }
      var g := store.FindGroup(store.settings.defaultGroup);
      if g == |store.groups| {
        return false;
      }
      Append(name, password, Member, store.settings.defaultGroup, true, 0, [], "");
      return true;
    }

    method CreateUser(q: UserReq) returns (ok: bool)
      modifies store
      ensures Reply(store.View(), ok) == OnCreateUser(old(store.View()), q)
    {
      if !ValidUsername(q.name) || |q.password| < 6 {
        return false;
      }
      var i := store.FindName(q.name);
      if i < |store.users| {
        return false;
      }
      var g := store.FindGroup(q.group);
      if g == |store.groups| {
        return false;
      }
      var fit := ValidateUserRanges(q.ranges, 0);
      if !fit {
        return false;
      }
      Append(q.name, q.password, if q.role.OtherRole? then Member else q.role, q.group, q.enabled, q.expireAt, q.ranges, q.note);
      return true;
    }

    /** Each field is written as soon as its own check has passed, in the user that is already in the list. */
    method EditUser(id: int, q: UserReq) returns (ok: bool)
      modifies store
      ensures Reply(store.View(), ok) == OnEditUser(old(store.View()), id, q)
    {
      var i := store.FindUser(id);
      if i == |store.users| {
        return false;
      }
      ok := WriteFields(i, q);
    }

    /** Assigns fields of the user at `i`; `base` is the list as it was before the request. */
    method SetUser(i: nat, u: User, ghost base: seq<User>)
      requires i < |store.users| == |base| && store.users == base[i := store.users[i]]
      modifies store`users
      ensures store.users == base[i := u]
    {
      store.users := store.users[i := u];
    }

    method WriteFields(i: nat, q: UserReq) returns (ok: bool)
      requires i < |store.users|
      modifies store`users
      ensures var w := EditedUser(old(store.View()), old(store.users)[i], q);
              store.users == old(store.users)[i := w.0] && ok == w.1
    {
      ghost var base := store.users;
      ghost var u := store.users[i];
      ghost var nameOk, groupOk := ValidUsername(q.name) && !NameTaken(base, q.name, u.id), GroupByID(store.groups, q.group).Some?;
      ghost var rangesOk := RangesFit(base, q.ranges, u.id);
      assert base[i := u] == base;
      if q.name != "" {
        var free := NameIsFree(q.name, store.users[i].id);
        if !free {
          return false;
        }
        SetUser(i, store.users[i].(name := q.name), base);
      }
      if q.password != "" {
        if |q.password| < 6 {
          return false;
        }
        SetUser(i, store.users[i].(password := q.password), base);
      }
      if q.group > 0 {
        var g := store.FindGroup(q.group);
        if g == |store.groups| {
          return false;
        }
        SetUser(i, store.users[i].(group := q.group), base);
      }
      var fit := ValidateUserRanges(q.ranges, store.users[i].id);
      OwnRangesDoNotMatter(base, i, store.users[i], q.ranges);
      if !fit {
        return false;
      }
      hide RangesFit;
      hide GroupByID;
      hide NameTaken;
      hide ValidUsername;
      WriteRest(i, q, base);
      return true;
    }

    method NameIsFree(name: string, id: int) returns (ok: bool)
      ensures ok <==> ValidUsername(name) && !NameTaken(store.users, name, id)
    {
      if !ValidUsername(name) {
        return false;
      }
      var j := store.FindName(name);
      return j == |store.users| || store.users[j].id == id;
    }

    /** The fields written without a check of their own. */
    method WriteRest(i: nat, q: UserReq, ghost base: seq<User>)
      requires i < |store.users| == |base| && store.users == base[i := store.users[i]]
      modifies store`users
      ensures store.users == base[i :=
                old(store.users)[i].(role := if q.role.OtherRole? then old(store.users)[i].role else q.role,
                                     enabled := q.enabled, expireAt := q.expireAt, ranges := q.ranges, note := q.note)]
    {
      if !q.role.OtherRole? {
        SetUser(i, store.users[i].(role := q.role), base);
      }
      SetUser(i, store.users[i].(enabled := q.enabled), base);
      SetUser(i, store.users[i].(expireAt := q.expireAt), base);
      SetUser(i, store.users[i].(ranges := q.ranges), base);
      SetUser(i, store.users[i].(note := q.note), base);
    }

    method FreeInternalPort(id: int)
      modifies store`realmPorts
      ensures store.realmPorts == old(store.realmPorts) - {Print(id)}
    {
      store.realmPorts := store.realmPorts - {Print(id)};
    }

    method DeleteUser(id: int, me: int) returns (ok: bool)
      modifies store
      ensures Reply(store.View(), ok) == OnDeleteUser(old(store.View()), id, me)
    {
      var i := store.FindUser(id);
      if i == |store.users| || store.users[i].id == me {
        return false;
      }
      ghost var gone := IdsOf(store.rules, id);
      IdListIs(store.rules, id);
      var removed := SplitRules(id);
      KeepOtherUsers(id);
      FreeAll(removed);
      KeysOfIds(removed, gone);
      return true;
    }

    /** The loop that takes the user's rules out of the list. */
    method SplitRules(user: int) returns (removed: seq<int>)
      modifies store`rules
      ensures store.rules == RulesNotOf(old(store.rules), user)
      ensures removed == IdList(old(store.rules), user)
    {
      var rules := store.rules;
      var keep: seq<Rule> := [];
      removed := [];
      var i := 0;
      while i < |rules|
        invariant 0 <= i <= |rules| && rules == store.rules == old(store.rules)
        invariant keep == RulesNotOf(rules[..i], user) && removed == IdList(rules[..i], user)
      {
        assert rules[..i + 1][..i] == rules[..i];
        if rules[i].user == user {
          removed := removed + [rules[i].id];
        } else {
          keep := keep + [rules[i]];
        }
        i := i + 1;
      }
      assert rules[..i] == rules;
      store.rules := keep;
    }

    method KeepOtherUsers(id: int)
      modifies store`users
      ensures store.users == UsersWithout(old(store.users), id)
    {
      var users := store.users;
      var keep: seq<User> := [];
      var i := 0;
      while i < |users|
        invariant 0 <= i <= |users| && keep == UsersWithout(users[..i], id)
      {
        assert users[..i + 1][..i] == users[..i];
        if users[i].id != id {
          keep := keep + [users[i]];
        }
        i := i + 1;
      }
      assert users[..i] == users;
      store.users := keep;
    }

    method FreeAll(ids: seq<int>)
      modifies store`realmPorts
      ensures store.realmPorts == old(store.realmPorts) - set k | 0 <= k < |ids| :: Print(ids[k])
    {
      var i := 0;
      while i < |ids|
        invariant 0 <= i <= |ids|
        invariant store.realmPorts == old(store.realmPorts) - set k | 0 <= k < i :: Print(ids[k])
      {
        FreeInternalPort(ids[i]);
        i := i + 1;
      }
    }

    method SetPassword(id: int, password: string) returns (ok: bool)
      modifies store
      ensures Reply(store.View(), ok) == OnSetPassword(old(store.View()), id, password)
    {
      var i := store.FindUser(id);
      if i == |store.users| || |password| < 6 {
        return false;
      }
      store.users := store.users[i := store.users[i].(password := password)];
      return true;
    }

    // ---------- groups and settings ----------

    method CreateGroup(q: GroupReq) returns (ok: bool)
      modifies store
      ensures Reply(store.View(), ok) == OnCreateGroup(old(store.View()), q)
    {
      if q.name == "" {
        return false;
      }
      var id := store.NextID();
      store.groups := store.groups + [Group(id, q.name, q.mbps, q.quotaGB, q.enabled, 0)];
      return true;
    }

    method EditGroup(id: int, q: GroupReq) returns (ok: bool)
      modifies store
      ensures Reply(store.View(), ok) == OnEditGroup(old(store.View()), id, q)
    {
      var i := store.FindGroup(id);
      if i == |store.groups| {
        return false;
      }
      var g := store.groups[i];
      if q.name != "" {
        g := g.(name := q.name);
      }
      store.groups := store.groups[i := g.(mbps := q.mbps, quotaGB := q.quotaGB, enabled := q.enabled)];
      return true;
    }

    method DeleteGroup(id: int) returns (ok: bool)
      modifies store
      ensures Reply(store.View(), ok) == OnDeleteGroup(old(store.View()), id)
    {
      var i := store.FindGroup(id);
      if i == |store.groups| {
        return false;
      }
      var used := GroupIsUsed(id);
      if used {
        return false;
      }
      KeepOtherGroups(id);
      return true;
    }

    method GroupIsUsed(id: int) returns (used: bool)
      ensures used <==> HasMembers(store.users, id)
    {
      var k := 0;
      while k < |store.users|
        invariant 0 <= k <= |store.users| && forall j :: 0 <= j < k ==> store.users[j].group != id
      {
        if store.users[k].group == id {
          return true;
        }
        k := k + 1;
      }
      return false;
    }

    method KeepOtherGroups(id: int)
      modifies store`groups
      ensures store.groups == GroupsWithout(old(store.groups), id)
    {
      var groups := store.groups;
      var keep: seq<Group> := [];
      var i := 0;
      while i < |groups|
        invariant 0 <= i <= |groups| && keep == GroupsWithout(groups[..i], id)
      {
        assert groups[..i + 1][..i] == groups[..i];
        if groups[i].id != id {
          keep := keep + [groups[i]];
        }
        i := i + 1;
      }
      assert groups[..i] == groups;
      store.groups := keep;
    }

    method ResetGroup(id: int) returns (ok: bool)
      modifies store
      ensures Reply(store.View(), ok) == Handle(old(store.View()), ResetGroupTotals(id))
    {
      var i := store.FindGroup(id);
      if i == |store.groups| {
        return false;
      }
      store.ResetGroupTraffic(id);
      return true;
    }

    method EditSettings(s: Settings) returns (ok: bool)
      modifies store
      ensures Reply(store.View(), ok) == OnEditSettings(old(store.View()), s)
    {
      if s.mode.OtherMode? {
        return false;
      }
      if s.defaultGroup > 0 {
        var g := store.FindGroup(s.defaultGroup);
        if g == |store.groups| {
          return false;
        }
      }
      store.settings := if s.recordsLimit < 100 || s.recordsLimit > 20000 then s.(recordsLimit := 3000) else s;
      return true;
    }

    // ---------- rules ----------

    method AppendRule(owner: int, q: RuleReq, enabled: bool)
      modifies store`seqNo, store`rules
      ensures store.View() == NewRule(old(store.View()), owner, q, enabled)
    {
      var id := store.NextID();
      store.rules := store.rules + [Rule(id, owner, q.port, q.tcp, q.udp, q.target, q.allowed, enabled, 0)];
    }

    method CreateRule(owner: int, q: RuleReq) returns (ok: bool)
      modifies store
      ensures Reply(store.View(), ok) == OnCreateRule(old(store.View()), owner, q)
    {
      ok := PortNumIsValid(q.port);
      if !ok {
        return false;
      }
      var i := store.FindUser(owner);
      if i == |store.users| {
        return false;
      }
      ok := RuleReqIsGood(store.users[i].ranges, q);
      if ok {
        AppendRule(owner, q, q.enabled);
      }
    }

    method SetRule(i: nat, p: Rule, ghost base: seq<Rule>)
      requires i < |store.rules| == |base| && store.rules == base[i := store.rules[i]]
      modifies store`rules
      ensures store.rules == base[i := p]
    {
      store.rules := store.rules[i := p];
    }

    /** Number and owner are written before the later checks. */
    method EditRule(id: int, owner: int, q: RuleReq) returns (ok: bool)
      modifies store
      ensures Reply(store.View(), ok) == OnEditRule(old(store.View()), id, owner, q)
    {
      var i := store.FindRule(id);
      if i == |store.rules| {
        return false;
      }
      ok := WriteRuleFields(i, owner, q);
    }

    method WriteRuleFields(i: nat, owner: int, q: RuleReq) returns (ok: bool)
      requires i < |store.rules|
      modifies store`rules
      ensures var w := EditedRule(old(store.View()), old(store.rules)[i], owner, q);
              store.rules == old(store.rules)[i := w.0] && ok == w.1
    {
      hide EditedBody;
      hide ValidPortNum;
      hide InRange;
      ghost var base := store.rules;
      assert base[i := base[i]] == base;
      if q.port > 0 && q.port != store.rules[i].port {
        var valid := PortNumIsValid(q.port);
        if !valid {
          return false;
        }
        SetRule(i, store.rules[i].(port := q.port), base);
      }
      if owner > 0 && owner != store.rules[i].user {
        var fits := OwnerFits(owner, store.rules[i].port);
        if !fits {
          return false;
        }
        SetRule(i, store.rules[i].(user := owner), base);
      }
      ok := WriteBody(i, q, base);
    }

    method OwnerFits(owner: int, port: int) returns (ok: bool)
      ensures ok <==> var u := UserByID(store.users, owner); u.Some? && InRange(u.value.ranges, port)
    {
      var u := store.FindUser(owner);
      if u == |store.users| {
        return false;
      }
      ok := NumberInRanges(store.users[u].ranges, port);
    }

    method WriteBody(i: nat, q: RuleReq, ghost base: seq<Rule>) returns (ok: bool)
      requires i < |store.rules| == |base| && store.rules == base[i := store.rules[i]]
      modifies store`rules
      ensures var w := EditedBody(old(store.rules)[i], q);
              store.rules == base[i := w.0] && ok == w.1
    {
      if !q.tcp && !q.udp {
        return false;
      }
      if q.target != "" {
        if !q.targetOk {
          return false;
        }
        SetRule(i, store.rules[i].(target := q.target), base);
      }
      if ValidAllowed(q.allowed) {
        SetRule(i, store.rules[i].(allowed := q.allowed), base);
      }
      SetRule(i, store.rules[i].(tcp := q.tcp), base);
      SetRule(i, store.rules[i].(udp := q.udp), base);
      SetRule(i, store.rules[i].(enabled := q.enabled), base);
      return true;
    }

    method KeepOtherRules(ids: set<int>)
      modifies store`rules
      ensures store.rules == RulesWithout(old(store.rules), ids)
    {
      var rules := store.rules;
      var keep: seq<Rule> := [];
      var i := 0;
      while i < |rules|
        invariant 0 <= i <= |rules| && keep == RulesWithout(rules[..i], ids)
      {
        assert rules[..i + 1][..i] == rules[..i];
        if rules[i].id !in ids {
          keep := keep + [rules[i]];
        }
        i := i + 1;
      }
      assert rules[..i] == rules;
      store.rules := keep;
    }

    method DeleteRule(id: int) returns (ok: bool)
      modifies store
      ensures Reply(store.View(), ok) == OnDeleteRule(old(store.View()), id)
    {
      var i := store.FindRule(id);
      if i == |store.rules| {
        return false;
      }
      KeepOtherRules({id});
      FreeInternalPort(id);
      assert KeysOf({id}) == {Print(id)};
      return true;
    }

    // ---------- a user's own rules ----------

    method AddOwnRule(me: int, q: RuleReq) returns (ok: bool)
      modifies store
      ensures Reply(store.View(), ok) == OnAddOwnRule(old(store.View()), me, q)
    {
      var i := store.FindUser(me);
      if i == |store.users| {
        return false;
      }
      ok := PortNumIsValid(q.port);
      if !ok {
        return false;
      }
      ok := RuleReqIsGood(store.users[i].ranges, q);
      if ok {
        AppendRule(me, q, true);
      }
    }

    /** All lines are checked before the first rule is written. */
    method AddOwnRules(me: int, qs: seq<RuleReq>) returns (ok: bool)
      modifies store
      ensures Reply(store.View(), ok) == OnAddOwnRules(old(store.View()), me, qs)
    {
      var i := store.FindUser(me);
      if i == |store.users| || |qs| == 0 || |qs| > 200 {
        return false;
      }
      ok := BatchIsGood(store.users[i].ranges, qs);
      if ok {
        AppendBatch(me, qs);
      }
    }

    method BatchIsGood(ranges: seq<PortRange>, qs: seq<RuleReq>) returns (ok: bool)
      ensures ok <==> BatchFits(store.rules, ranges, qs)
    {
      var seen: set<int> := {};
      var i := 0;
      while i < |qs|
        invariant 0 <= i <= |qs|
        invariant seen == set j | 0 <= j < i :: qs[j].port
        invariant BatchFits(store.rules, ranges, qs[..i])
      {
        var q := qs[i];
        if q.port < 1 || q.port > 65535 {
          return false;
        }
        if q.port in seen {
          return false;
        }
        seen := seen + {q.port};
        var free := PortNumIsValid(q.port);
        if !free {
          return false;
        }
        var good := RuleReqIsGood(ranges, q);
        if !good {
          return false;
        }
        assert qs[..i + 1] == qs[..i] + [q];
        FitsOneMore(store.rules, ranges, qs[..i], q);
        i := i + 1;
      }
      assert qs[..i] == qs;
      return true;
    }

    method AppendBatch(me: int, qs: seq<RuleReq>)
      modifies store`seqNo, store`rules
      ensures store.View() == AppendRules(old(store.View()), me, qs)
    {
      var i := 0;
      while i < |qs|
        invariant 0 <= i <= |qs| && store.View() == AppendRules(old(store.View()), me, qs[..i])
      {
        AppendRule(me, qs[i], qs[i].enabled);
        assert qs[..i + 1][..i] == qs[..i];
        i := i + 1;
      }
      assert qs[..i] == qs;
    }

    method EditOwnRule(me: int, id: int, q: RuleReq) returns (ok: bool)
      modifies store
      ensures Reply(store.View(), ok) == OnEditOwnRule(old(store.View()), me, id, q)
    {
      var u := store.FindUser(me);
      if u == |store.users| {
        return false;
      }
      var i := store.FindRule(id);
      if i == |store.rules| || store.rules[i].user != me {
        return false;
      }
      ghost var base := store.rules;
      assert base[i := base[i]] == base;
      ok := WriteBody(i, q, base);
    }

    method DeleteOwnRule(me: int, id: int) returns (ok: bool)
      modifies store
      ensures Reply(store.View(), ok) == OnDeleteOwnRule(old(store.View()), me, id)
    {
      var u := store.FindUser(me);
      if u == |store.users| {
        return false;
      }
      var i := store.FindRule(id);
      if i == |store.rules| || store.rules[i].user != me {
        return false;
      }
      KeepOtherRules({id});
      FreeInternalPort(id);
      assert KeysOf({id}) == {Print(id)};
      return true;
    }

    method DeleteOwnRules(me: int, ids: seq<int>) returns (ok: bool)
      modifies store
      ensures Reply(store.View(), ok) == OnDeleteOwnRules(old(store.View()), me, ids)
    {
      var u := store.FindUser(me);
      if u == |store.users| || |ids| == 0 || |ids| > 200 {
        return false;
      }
      var own, gone := OwnsAll(me, ids);
      if !own {
        return false;
      }
      KeepOtherRules(gone);
      FreeAll(ids);
      KeysOfIds(ids, gone);
      return true;
    }

    /** The check of a batch deletion; it collects the ids as a set. */
    method OwnsAll(me: int, ids: seq<int>) returns (ok: bool, gone: set<int>)
      ensures ok <==> forall i :: 0 <= i < |ids| ==> Owns(store.rules, me, ids[i])
      ensures ok ==> gone == set i | 0 <= i < |ids| :: ids[i]
    {
      gone := {};
      var i := 0;
      while i < |ids|
        invariant 0 <= i <= |ids|
        invariant gone == set j | 0 <= j < i :: ids[j]
        invariant forall j :: 0 <= j < i ==> Owns(store.rules, me, ids[j])
      {
        var k := store.FindRule(ids[i]);
        if k == |store.rules| || store.rules[k].user != me {
          return false, gone;
        }
        gone := gone + {ids[i]};
        i := i + 1;
      }
      return true, gone;
    }

    // ---------- all requests ----------

    /** Every handler does to the store what its specification does to the database, and answers the same. */
    method Serve(r: Request) returns (ok: bool)
      modifies store
      ensures Reply(store.View(), ok) == Handle(old(store.View()), r)
    {
      hide OnRegister, OnCreateUser, OnEditUser, OnDeleteUser, OnSetPassword, OnCreateGroup, OnEditGroup, OnDeleteGroup;
      hide OnCreateRule, OnEditRule, OnDeleteRule, OnEditSettings;
      hide OnAddOwnRule, OnAddOwnRules, OnEditOwnRule, OnDeleteOwnRule, OnDeleteOwnRules;
      match r
      case Register(name, password) => ok := Register(name, password);
      case CreateUser(q) => ok := CreateUser(q);
      case EditUser(id, q) => ok := EditUser(id, q);
      case DeleteUser(id, me) => ok := DeleteUser(id, me);
      case SetPassword(id, password) => ok := SetPassword(id, password);
      case ResetUserTotals(id) => ok := store.ResetUserTraffic(id);
      case CreateGroup(q) => ok := CreateGroup(q);
      case EditGroup(id, q) => ok := EditGroup(id, q);
      case DeleteGroup(id) => ok := DeleteGroup(id);
      case ResetGroupTotals(id) => ok := ResetGroup(id);
      case CreateRule(owner, q) => ok := CreateRule(owner, q);
      case EditRule(id, owner, q) => ok := EditRule(id, owner, q);
      case DeleteRule(id) => ok := DeleteRule(id);
      case EditSettings(s) => ok := EditSettings(s);
      case AddOwnRule(me, q) => ok := AddOwnRule(me, q);
      case AddOwnRules(me, qs) => ok := AddOwnRules(me, qs);
      case EditOwnRule(me, id, q) => ok := EditOwnRule(me, id, q);
      case DeleteOwnRule(me, id) => ok := DeleteOwnRule(me, id);
      case DeleteOwnRules(me, ids) => ok := DeleteOwnRules(me, ids);
    }
  }

  /** The ids of a user's rules, in order. */
  function IdList(rules: seq<Rule>, user: int): seq<int> {
    if rules == [] then []
    else
      var p := rules[|rules| - 1];
      IdList(rules[..|rules| - 1], user) + (if p.user == user then [p.id] else [])
  }

  lemma {:induction false} IdListIs(rules: seq<Rule>, user: int)
    ensures forall k :: 0 <= k < |IdList(rules, user)| ==> IdList(rules, user)[k] in IdsOf(rules, user)
    ensures forall id :: id in IdsOf(rules, user) ==> id in IdList(rules, user)
  {
    if rules != [] {
      var pre, p := rules[..|rules| - 1], rules[|rules| - 1];
      IdListIs(pre, user);
      var all, ids := IdsOf(rules, user), IdsOf(pre, user);
      assert all == ids + (if p.user == user then {p.id} else {}) by {
        assert forall i :: 0 <= i < |pre| ==> rules[i] == pre[i];
        forall id | id in ids ensures id in all {
          var i :| 0 <= i < |pre| && pre[i].user == user && pre[i].id == id;
          assert rules[i].id == id;
        }
        forall id | id in all && !(p.user == user && id == p.id) ensures id in ids {
          var i :| 0 <= i < |rules| && rules[i].user == user && rules[i].id == id;
          assert pre[i].id == id;
        }
      }
    }
  }

  lemma KeysOfIds(ids: seq<int>, gone: set<int>)
    requires forall k :: 0 <= k < |ids| ==> ids[k] in gone
    requires forall id :: id in gone ==> id in ids
    ensures (set k | 0 <= k < |ids| :: Print(ids[k])) == KeysOf(gone)
  {
  }

  lemma OwnRangesDoNotMatter(users: seq<User>, i: nat, u: User, ranges: seq<PortRange>)
    requires i < |users| && u.id == users[i].id
    ensures RangesFit(users[i := u], ranges, u.id) <==> RangesFit(users, ranges, u.id)
  {
    var users' := users[i := u];
    assert forall k :: 0 <= k < |users| ==> users'[k].id == users[k].id;
    assert forall k :: 0 <= k < |users| && users[k].id != u.id ==> users'[k] == users[k];
    forall j | 0 <= j < |ranges| ensures RangeFits(users', ranges, u.id, j) <==> RangeFits(users, ranges, u.id, j) {
    }
    RangesFitIs(users, ranges, u.id);
    RangesFitIs(users', ranges, u.id);
  }

  lemma RangesFitIs(users: seq<User>, ranges: seq<PortRange>, exclude: int)
    ensures RangesFit(users, ranges, exclude) <==> forall j :: 0 <= j < |ranges| ==> RangeFits(users, ranges, exclude, j)
  {
    if forall j :: 0 <= j < |ranges| ==> RangeFits(users, ranges, exclude, j) {
      forall j | 0 <= j < |ranges|
        ensures ValidRange(ranges[j]) && !ClashesWith(ranges[j], ranges[..j])
        ensures forall k :: 0 <= k < |users| && users[k].id != exclude ==> !ClashesWith(ranges[j], users[k].ranges)
      {
        assert RangeFits(users, ranges, exclude, j);
      }
    }
  }

  predicate RangeFits(users: seq<User>, ranges: seq<PortRange>, exclude: int, i: nat)
    requires i < |ranges|
  {
    && ValidRange(ranges[i])
    && !ClashesWith(ranges[i], ranges[..i])
    && forall k :: 0 <= k < |users| && users[k].id != exclude ==> !ClashesWith(ranges[i], users[k].ranges)
  }
}
