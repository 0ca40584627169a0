/** A small database with two users, two groups and two rules, for the results that need a concrete one. */
module Samples {
  import opened Stores
  import opened Detection
  import opened Registry
  import opened Soundness

  function Alice(total: int): User {
    User(2, "alice", "secret", Admin, 1, true, 0, [PortRange(1000, 1999)], "", total)
  }

  function Bob(total: int): User {
    User(3, "bob", "secret", Member, 1, true, 0, [PortRange(2000, 2999)], "", total)
  }

  function AliceRule(total: int): Rule {
    Rule(4, 2, 1000, true, true, "10.0.0.1:80", Auto, true, total)
  }

  function BobRule(total: int): Rule {
    Rule(5, 3, 2000, true, true, "10.0.0.2:80", Auto, true, total)
  }

  /** An edit of Alice that takes all ranges away and, unless it is 0, sets the group. */
  function AliceEdit(group: int): UserReq {
    UserReq("", "", group, true, 0, [], "", Admin)
  }

  /** An edit of a rule that sets its number and keeps its target. */
  function NumberEdit(port: int): RuleReq {
    RuleReq(port, true, true, "", true, Auto, true)
  }

  /** Both users are in group 1, which has a quota of `quotaGB` and has passed what both have; group 6 is empty. */
  function Sample(a: nat, b: nat, quotaGB: int): DB {
    DB(6, [Alice(a), Bob(b)], [Group(1, "all", 0, quotaGB, true, a + b), Group(6, "other", 0, 0, true, 0)],
       [AliceRule(a), BobRule(b)], Settings(true, 1, "realm", "realm.toml", "realm.log", Mode.Realm, 3000), map[], map[])
  }

  lemma SampleLookups(a: nat, b: nat, quotaGB: int)
    ensures var db := Sample(a, b, quotaGB);
            && UserIdx(db.users, 2) == 0 && UserIdx(db.users, 3) == 1
            && GroupIdx(db.groups, 1) == 0 && GroupIdx(db.groups, 6) == 1
            && RuleIdx(db.rules, 4) == 0 && RuleIdx(db.rules, 5) == 1
            && forall port :: port != 1000 && port != 2000 ==> RuleByPort(db.rules, port).None?
  {
    var db := Sample(a, b, quotaGB);
    assert db.users[0].id == 2 && db.users[1].id == 3;
    assert db.groups[0].id == 1 && db.groups[1].id == 6;
    assert db.rules[0].id == 4 && db.rules[1].id == 5;
  }

  lemma SampleUsers(a: nat, b: nat)
    ensures UserIds([Alice(a), Bob(b)], 6) && Names([Alice(a), Bob(b)]) && Ranges([Alice(a), Bob(b)])
  {
    assert "alice"[0] != "bob"[0];
  }

  lemma SampleIsStarted(a: nat, b: nat, quotaGB: int)
    ensures Started(Sample(a, b, quotaGB))
  {
    SampleLookups(a, b, quotaGB);
    SampleUsers(a, b);
    hide Names, Ranges, UserIds;
  }
}
