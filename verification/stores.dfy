/** The panel's database and the traffic totals kept in it (storage.go). */
module Stores {
  import opened Detection

  datatype Option<+T> = None | Some(value: T)

  datatype PortRange = PortRange(start: int, end: int)

  /** What is recorded about a connection attempt. */
  datatype Verdict = Allow | DenyDisabled | DenyUser | DenyGroup | DenyQuota | DenyProtocol | DenyUnbound | DenyTarget

  datatype Role = Admin | Member | OtherRole(text: string)

  datatype Mode = Realm | Direct | OtherMode(text: string)

  datatype User = User(id: int, name: string, password: string, role: Role, group: int, enabled: bool,
                       expireAt: int, ranges: seq<PortRange>, note: string, total: int)

  datatype Group = Group(id: int, name: string, mbps: int, quotaGB: int, enabled: bool, total: int)

  /** A forwarding rule; the source calls it Port. */
  datatype Rule = Rule(id: int, user: int, port: int, tcp: bool, udp: bool, target: string, allowed: Setting,
                       enabled: bool, total: int)

  datatype Settings = Settings(allowRegister: bool, defaultGroup: int, realmBin: string, realmConfigPath: string,
                               realmLogPath: string, mode: Mode, recordsLimit: int)

  datatype DB = DB(seqNo: int, users: seq<User>, groups: seq<Group>, rules: seq<Rule>, settings: Settings,
                   realmPorts: map<string, int>, daily: map<string, int>)

  // ---------- lookups: the first match, as the source's loops return it ----------

  /** The index of the first match, or the length when there is none. */
  function UserIdx(users: seq<User>, id: int): (i: nat)
    ensures i <= |users| && (i < |users| ==> users[i].id == id)
    ensures forall j :: 0 <= j < i ==> users[j].id != id
  {
    if users == [] || users[0].id == id then 0 else 1 + UserIdx(users[1..], id)
  }

  function UserByID(users: seq<User>, id: int): Option<User> {
    var i := UserIdx(users, id);
    if i < |users| then Some(users[i]) else None
  }

  /** The index of the first match, or the length when there is none. */
  function NameIdx(users: seq<User>, name: string): (i: nat)
    ensures i <= |users| && (i < |users| ==> users[i].name == name)
    ensures forall j :: 0 <= j < i ==> users[j].name != name
  {
    if users == [] || users[0].name == name then 0 else 1 + NameIdx(users[1..], name)
  }

  function UserByName(users: seq<User>, name: string): Option<User> {
    var i := NameIdx(users, name);
    if i < |users| then Some(users[i]) else None
  }

  /** The index of the first match, or the length when there is none. */
  function GroupIdx(groups: seq<Group>, id: int): (i: nat)
    ensures i <= |groups| && (i < |groups| ==> groups[i].id == id)
    ensures forall j :: 0 <= j < i ==> groups[j].id != id
  {
    if groups == [] || groups[0].id == id then 0 else 1 + GroupIdx(groups[1..], id)
  }

  function GroupByID(groups: seq<Group>, id: int): Option<Group> {
    var i := GroupIdx(groups, id);
    if i < |groups| then Some(groups[i]) else None
  }

  /** The index of the first match, or the length when there is none. */
  function RuleIdx(rules: seq<Rule>, id: int): (i: nat)
    ensures i <= |rules| && (i < |rules| ==> rules[i].id == id)
    ensures forall j :: 0 <= j < i ==> rules[j].id != id
  {
    if rules == [] || rules[0].id == id then 0 else 1 + RuleIdx(rules[1..], id)
  }

  function RuleByID(rules: seq<Rule>, id: int): Option<Rule> {
    var i := RuleIdx(rules, id);
    if i < |rules| then Some(rules[i]) else None
  }

  /** The index of the first match, or the length when there is none. */
  function PortIdx(rules: seq<Rule>, port: int): (i: nat)
    ensures i <= |rules| && (i < |rules| ==> rules[i].port == port)
    ensures forall j :: 0 <= j < i ==> rules[j].port != port
  {
    if rules == [] || rules[0].port == port then 0 else 1 + PortIdx(rules[1..], port)
  }

  function RuleByPort(rules: seq<Rule>, port: int): Option<Rule> {
    var i := PortIdx(rules, port);
    if i < |rules| then Some(rules[i]) else None
  }

  predicate Active(r: Rule) {
    r.enabled && (r.tcp || r.udp)
  }

  predicate InRange(ranges: seq<PortRange>, port: int) {
    exists i :: 0 <= i < |ranges| && ranges[i].start <= port <= ranges[i].end
  }

  /** 0 means no quota. */
  function QuotaBytes(g: Group): int {
    if g.quotaGB <= 0 then 0 else g.quotaGB * 1024 * 1024 * 1024
  }

  predicate OverQuota(db: DB, u: User) {
    match GroupByID(db.groups, u.group)
    case None => false
    case Some(g) => QuotaBytes(g) > 0 && u.total >= QuotaBytes(g)
  }

  /** May traffic of rule `p` pass now? `p` is the caller's rule object, which may no longer be in the database. */
  function CanUse(db: DB, p: Rule, now: int): Verdict {
    if !p.enabled then DenyDisabled
    else match UserByID(db.users, p.user)
      case None => DenyUser
      case Some(u) =>
        if !u.enabled || (u.expireAt > 0 && now > u.expireAt) then DenyUser
        else match GroupByID(db.groups, u.group)
          case None => DenyGroup
          case Some(g) =>
            if !g.enabled then DenyGroup
            else if QuotaBytes(g) > 0 && u.total >= QuotaBytes(g) then DenyQuota
            else Allow
  }

  // ---------- totals ----------

  // Each adds `n` to the first entry numbered `id`, if there is one.

  function AddToRule(rules: seq<Rule>, id: int, n: int): seq<Rule> {
    var i := RuleIdx(rules, id);
    if i < |rules| then rules[i := rules[i].(total := rules[i].total + n)] else rules
  }

  function AddToUser(users: seq<User>, id: int, n: int): seq<User> {
    var i := UserIdx(users, id);
    if i < |users| then users[i := users[i].(total := users[i].total + n)] else users
  }

  function AddToGroup(groups: seq<Group>, id: int, n: int): seq<Group> {
    var i := GroupIdx(groups, id);
    if i < |groups| then groups[i := groups[i].(total := groups[i].total + n)] else groups
  }

  function DayBytes(daily: map<string, int>, day: string): int {
    if day in daily then daily[day] else 0
  }

  /** One settlement: the day, the rule, the user and the group each gain `n`. */
  function Settle(db: DB, rule: int, user: int, group: int, n: int, today: string): DB {
    if n <= 0 then db
    else db.(daily := db.daily[today := DayBytes(db.daily, today) + n],
             rules := AddToRule(db.rules, rule, n),
             users := AddToUser(db.users, user, n),
             groups := AddToGroup(db.groups, group, n))
  }

  function ClearUsersIn(users: seq<User>, group: int): (r: seq<User>)
    ensures |r| == |users|
    ensures forall i :: 0 <= i < |users| ==> r[i] == if users[i].group == group then users[i].(total := 0) else users[i]
  {
    seq(|users|, i requires 0 <= i < |users| => if users[i].group == group then users[i].(total := 0) else users[i])
  }

  function ClearRulesOf(rules: seq<Rule>, user: int): (r: seq<Rule>)
    ensures |r| == |rules|
    ensures forall i :: 0 <= i < |rules| ==> r[i] == if rules[i].user == user then rules[i].(total := 0) else rules[i]
  {
    seq(|rules|, i requires 0 <= i < |rules| => if rules[i].user == user then rules[i].(total := 0) else rules[i])
  }

  predicate OwnerIn(users: seq<User>, rule: Rule, group: int) {
    exists i :: 0 <= i < |users| && users[i].id == rule.user && users[i].group == group
  }

  function ClearRulesIn(rules: seq<Rule>, users: seq<User>, group: int): (r: seq<Rule>)
    ensures |r| == |rules|
    ensures forall i :: 0 <= i < |rules| ==>
              r[i] == if OwnerIn(users, rules[i], group) then rules[i].(total := 0) else rules[i]
  {
    seq(|rules|, i requires 0 <= i < |rules| => if OwnerIn(users, rules[i], group) then rules[i].(total := 0) else rules[i])
  }

  function ClearGroups(groups: seq<Group>, id: int): (r: seq<Group>)
    ensures |r| == |groups|
    ensures forall i :: 0 <= i < |groups| ==> r[i] == if groups[i].id == id then groups[i].(total := 0) else groups[i]
  {
    seq(|groups|, i requires 0 <= i < |groups| => if groups[i].id == id then groups[i].(total := 0) else groups[i])
  }

  /** Zeroes one user and that user's rules. */
  function ResetUser(db: DB, id: int): DB {
    var i := UserIdx(db.users, id);
    if i == |db.users| then db
    else db.(users := db.users[i := db.users[i].(total := 0)], rules := ClearRulesOf(db.rules, id))
  }

  /** Zeroes a group, its users and their rules. */
  function ResetGroup(db: DB, id: int): DB {
    db.(groups := ClearGroups(db.groups, id),
        users := ClearUsersIn(db.users, id),
        rules := ClearRulesIn(db.rules, db.users, id))
  }

  /** The store of storage.go, locks left out: each method is one critical section. */
  class Store {
    var seqNo: int
    var users: seq<User>
    var groups: seq<Group>
    var rules: seq<Rule>
    var settings: Settings
    var realmPorts: map<string, int>
    var daily: map<string, int>

    function View(): DB
      reads this
    {
      DB(seqNo, users, groups, rules, settings, realmPorts, daily)
    }

    method NextID() returns (id: int)
      modifies this`seqNo
      ensures id == seqNo == old(seqNo) + 1
    {
      seqNo := seqNo + 1;
      id := seqNo;
    }

    method FindUser(id: int) returns (i: nat)
      ensures i == UserIdx(users, id)
    {
      i := 0;
      while i < |users| && users[i].id != id
        invariant i <= |users| && forall j :: 0 <= j < i ==> users[j].id != id
      {
        i := i + 1;
      }
    }

    method FindName(name: string) returns (i: nat)
      ensures i == NameIdx(users, name)
    {
      i := 0;
      while i < |users| && users[i].name != name
        invariant i <= |users| && forall j :: 0 <= j < i ==> users[j].name != name
      {
        i := i + 1;
      }
    }

    method FindGroup(id: int) returns (i: nat)
      ensures i == GroupIdx(groups, id)
    {
      i := 0;
      while i < |groups| && groups[i].id != id
        invariant i <= |groups| && forall j :: 0 <= j < i ==> groups[j].id != id
      {
        i := i + 1;
      }
    }

    method FindRule(id: int) returns (i: nat)
      ensures i == RuleIdx(rules, id)
    {
      i := 0;
      while i < |rules| && rules[i].id != id
        invariant i <= |rules| && forall j :: 0 <= j < i ==> rules[j].id != id
      {
        i := i + 1;
      }
    }

    method FindPort(port: int) returns (i: nat)
      ensures i == PortIdx(rules, port)
    {
      i := 0;
      while i < |rules| && rules[i].port != port
        invariant i <= |rules| && forall j :: 0 <= j < i ==> rules[j].port != port
      {
        i := i + 1;
      }
    }

    method AddTraffic(rule: int, user: int, group: int, n: int, today: string)
      modifies this`daily, this`rules, this`users, this`groups
      ensures View() == Settle(old(View()), rule, user, group, n, today)
    {
      if n <= 0 {
        return;
      }
      AddToDay(today, n);
      AddToRules(rule, n);
      AddToUsers(user, n);
      AddToGroups(group, n);
    }

    method AddToDay(today: string, n: int)
      modifies this`daily
      ensures daily == old(daily)[today := DayBytes(old(daily), today) + n]
    {
      if today !in daily {
        daily := daily[today := 0];
      }
      daily := daily[today := daily[today] + n];
    }

    /** The rule loop of AddTraffic. */
    method AddToRules(id: int, n: int)
      modifies this`rules
      ensures rules == AddToRule(old(rules), id, n)
    {
      var i := 0;
      while i < |rules| && rules[i].id != id
        invariant 0 <= i <= |rules| && forall j :: 0 <= j < i ==> rules[j].id != id
      {
        i := i + 1;
      }
      if i < |rules| {
        rules := rules[i := rules[i].(total := rules[i].total + n)];
      }
    }

    /** The user loop of AddTraffic. */
    method AddToUsers(id: int, n: int)
      modifies this`users
      ensures users == AddToUser(old(users), id, n)
    {
      var i := 0;
      while i < |users| && users[i].id != id
        invariant 0 <= i <= |users| && forall j :: 0 <= j < i ==> users[j].id != id
      {
        i := i + 1;
      }
      if i < |users| {
        users := users[i := users[i].(total := users[i].total + n)];
      }
    }

    /** The group loop of AddTraffic. */
    method AddToGroups(id: int, n: int)
      modifies this`groups
      ensures groups == AddToGroup(old(groups), id, n)
    {
      var i := 0;
      while i < |groups| && groups[i].id != id
        invariant 0 <= i <= |groups| && forall j :: 0 <= j < i ==> groups[j].id != id
      {
        i := i + 1;
      }
      if i < |groups| {
        groups := groups[i := groups[i].(total := groups[i].total + n)];
      }
    }

    method ResetUserTraffic(user: int) returns (found: bool)
      modifies this`users, this`rules
      ensures View() == ResetUser(old(View()), user)
      ensures found == UserByID(old(users), user).Some?
    {
      var i := 0;
      while i < |users| && users[i].id != user
        invariant 0 <= i <= |users| && forall j :: 0 <= j < i ==> users[j].id != user
      {
        i := i + 1;
      }
      assert i == UserIdx(users, user);
      found := i < |users|;
      if !found {
        return;
      }
      users := users[i := users[i].(total := 0)];
      i := 0;
      while i < |rules|
        invariant 0 <= i <= |rules| == |old(rules)|
        invariant forall j :: 0 <= j < i ==>
                    rules[j] == if old(rules)[j].user == user then old(rules)[j].(total := 0) else old(rules)[j]
        invariant rules[i..] == old(rules)[i..]
        invariant users == ResetUser(old(View()), user).users
      {
        assert rules[i] == rules[i..][0] == old(rules)[i];
        if rules[i].user == user {
          rules := rules[i := rules[i].(total := 0)];
        }
        i := i + 1;
      }
      assert rules == ClearRulesOf(old(rules), user);
    }

    method ResetGroupTraffic(group: int)
      modifies this`groups, this`users, this`rules
      ensures View() == ResetGroup(old(View()), group)
    {
      var i := 0;
      while i < |groups|
        invariant 0 <= i <= |groups| == |old(groups)|
        invariant forall j :: 0 <= j < i ==>
                    groups[j] == if old(groups)[j].id == group then old(groups)[j].(total := 0) else old(groups)[j]
        invariant groups[i..] == old(groups)[i..]
        invariant users == old(users) && rules == old(rules)
      {
        assert groups[i] == groups[i..][0] == old(groups)[i];
        if groups[i].id == group {
          groups := groups[i := groups[i].(total := 0)];
        }
        i := i + 1;
      }
      assert groups == ClearGroups(old(groups), group);
      i := 0;
      while i < |users|
        invariant 0 <= i <= |users| == |old(users)|
        invariant forall j :: 0 <= j < i ==>
                    users[j] == if old(users)[j].group == group then old(users)[j].(total := 0) else old(users)[j]
        invariant users[i..] == old(users)[i..]
        invariant groups == ClearGroups(old(groups), group) && rules == old(rules)
      {
        assert users[i] == users[i..][0] == old(users)[i];
        if users[i].group == group {
          users := users[i := users[i].(total := 0)];
        }
        i := i + 1;
      }
      assert users == ClearUsersIn(old(users), group);
      ClearRulesOfGroup(group, old(users));
    }

    /** The nested loop of ResetGroupTraffic. `before` are the users before their totals were cleared. */
    method ClearRulesOfGroup(group: int, ghost before: seq<User>)
      requires |users| == |before|
      requires forall j :: 0 <= j < |users| ==> users[j].id == before[j].id && users[j].group == before[j].group
      modifies this`rules
      ensures rules == ClearRulesIn(old(rules), before, group)
    {
      var i := 0;
      while i < |rules|
        invariant 0 <= i <= |rules| == |old(rules)|
        invariant forall j :: 0 <= j < i ==>
                    rules[j] == if OwnerIn(before, old(rules)[j], group) then old(rules)[j].(total := 0) else old(rules)[j]
        invariant rules[i..] == old(rules)[i..]
      {
        var k := 0;
        var hit := false;
        ghost var r := rules[i];
        while k < |users|
          invariant 0 <= k <= |users| && |rules| == |old(rules)|
          invariant hit <==> exists x :: 0 <= x < k && before[x].id == r.user && before[x].group == group
          invariant forall j :: 0 <= j < |rules| && j != i ==>
                      rules[j] == if j < i && OwnerIn(before, old(rules)[j], group) then old(rules)[j].(total := 0) else old(rules)[j]
          invariant rules[i] == if hit then r.(total := 0) else r
        {
          if users[k].id == rules[i].user && users[k].group == group {
            rules := rules[i := rules[i].(total := 0)];
            hit := true;
          }
          k := k + 1;
        }
        assert hit <==> OwnerIn(before, r, group);
        i := i + 1;
      }
    }
  }
}
