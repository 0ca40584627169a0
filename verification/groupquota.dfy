/** The quota as it is documented, by the group's traffic, against the quota as it is tested, by the user's own (relay.go). */
module GroupQuota {
  import opened Stores
  import opened Registry
  import opened Soundness
  import opened Answers
  import opened Samples
  import opened Totals
  import opened Billing
  import opened BillingLedger

  /** README.md:23: a group whose traffic has reached its quota is cut off, and so are all its users. */
  predicate GroupOverQuota(db: DB, u: User) {
    match GroupByID(db.groups, u.group)
    case None => false
    case Some(g) => QuotaBytes(g) > 0 && g.total >= QuotaBytes(g)
  }

  lemma {:induction false} ShareOfSum(users: seq<User>, i: nat)
    requires i < |users| && forall k :: 0 <= k < |users| ==> users[k].total >= 0
    ensures users[i].total <= UserBytes(users, users[i].group)
  {
    var n := |users| - 1;
    if i < n {
      ShareOfSum(users[..n], i);
    } else {
      NoDebtInSum(users[..n], users[i].group);
    }
  }

  lemma {:induction false} NoDebtInSum(users: seq<User>, group: int)
    requires forall k :: 0 <= k < |users| ==> users[k].total >= 0
    ensures UserBytes(users, group) >= 0
  {
    if users != [] { NoDebtInSum(users[..|users| - 1], group); }
  }

  lemma UserWithinGroup(db: DB, i: nat)
    requires Started(db) && Nested(db) && i < |db.users|
    ensures GroupByID(db.groups, db.users[i].group).Some?
    ensures db.users[i].total <= GroupByID(db.groups, db.users[i].group).value.total
  {
    ShareOfSum(db.users, i);
    var g := GroupIdx(db.groups, db.users[i].group);
    assert db.groups[g].id == db.users[i].group;
  }

  /** While the totals are nested, the code never cuts a user off before the documented quota is reached. */
  lemma NeverCutOffEarly(db: DB, i: nat)
    requires Started(db) && Nested(db) && i < |db.users| && OverQuota(db, db.users[i])
    ensures GroupOverQuota(db, db.users[i])
  {
    UserWithinGroup(db, i);
  }

  /** While the totals are nested, the two tests agree exactly when there is no quota, when the group is still below it, or when this
      user alone has reached it: in between, a user of a group over quota goes on. */
  lemma TestsAgree(db: DB, i: nat)
    requires Started(db) && Nested(db) && i < |db.users|
    ensures GroupByID(db.groups, db.users[i].group).Some?
    ensures var u := db.users[i];
            var g := GroupByID(db.groups, u.group).value;
            (OverQuota(db, u) <==> GroupOverQuota(db, u))
            <==> QuotaBytes(g) == 0 || g.total < QuotaBytes(g) || u.total >= QuotaBytes(g)
  {
    UserWithinGroup(db, i);
  }

  /** So a group is served beyond its quota: two users share 1 GB, each has used 600 MB, and both are let through. */
  lemma GroupOverQuotaIsServed() returns (db: DB, now: int)
    ensures Started(db) && Nested(db) && |db.users| == |db.rules| == 2
    ensures forall i :: 0 <= i < 2 ==>
              && db.rules[i].user == db.users[i].id && GroupOverQuota(db, db.users[i])
              && CanUse(db, db.rules[i], now) == Allow
  {
    var used := 600 * 1024 * 1024;
    db, now := Sample(used, used, 1), 0;
    SampleIsStarted(used, used, 1);
    SampleIsNested(used, used, 1);
    SampleLookups(used, used, 1);
  }

  /** A user's total moves along to another group, whose total it is not part of. So, from nested totals, an edit cuts a
      user off too early exactly when it is moved to a group that is below a quota which this user alone has reached. */
  lemma MovedIntoQuota(db: DB, i: nat, q: UserReq)
    requires Started(db) && Nested(db) && i < |db.users|
    ensures var after := OnEditUser(db, db.users[i].id, q).db;
            && |after.users| == |db.users|
            && var u := after.users[i];
               (OverQuota(after, u) && !GroupOverQuota(after, u))
               <==> JoinsGroup(db, db.users[i], q)
                    && var g := GroupByID(db.groups, q.group).value; g.total < QuotaBytes(g) <= db.users[i].total
  {
    assert UserIdx(db.users, db.users[i].id) == i;
    UserWithinGroup(db, i);
    WrittenMembership(db, db.users[i], q);
    hide EditedUser, Nested, Started, JoinsGroup, UserIdx, GroupIdx;
  }

  const USED: nat := 2 * 1024 * 1024 * 1024

  /** The sample after the empty group has been given a quota of 1 GB. */
  lemma QuotaGiven() returns (db: DB)
    ensures db == Sample(USED, 0, 0).(groups := [Group(1, "all", 0, 0, true, USED), Group(6, "other", 0, 1, true, 0)])
    ensures Started(db) && Nested(db) && UserIdx(db.users, 2) == 0 && GroupIdx(db.groups, 6) == 1
  {
    hide Nested, Started, RuleIdx, UserIdx, GroupIdx;
    var before, q := Sample(USED, 0, 0), GroupReq("", 0, 1, true);
    db := OnEditGroup(before, 6, q).db;
    SampleLookups(USED, 0, 0);
    assert UserIdx(db.users, 2) == 0;
    assert db.groups[0].id == 1 && db.groups[1].id == 6;
    assert db.groups == [Group(1, "all", 0, 0, true, USED), Group(6, "other", 0, 1, true, 0)];
    SampleIsStarted(USED, 0, 0);
    SampleIsNested(USED, 0, 0);
    RequestIsSound(before, EditGroup(6, q));
    RequestIsNested(before, EditGroup(6, q));
    hide OnEditGroup, Sample;
  }

  /** It happens: Alice, who has passed 2 GB in a group without quota, joins an empty group with a quota of 1 GB. */
  lemma CutOffTooEarly() returns (db: DB, q: UserReq, now: int)
    ensures Started(db) && Nested(db) && UserIdx(db.users, 2) == 0 && OnEditUser(db, 2, q).ok
    ensures var after := OnEditUser(db, 2, q).db;
            && |after.users| == |after.rules| == 2 && after.rules[0].user == 2
            && OverQuota(after, after.users[0]) && !GroupOverQuota(after, after.users[0])
            && CanUse(after, after.rules[0], now) == DenyQuota
  {
    hide Nested, Started, EditedUser;
    q, now := AliceEdit(6), 0;
    db := QuotaGiven();
    EditUserAccepted(db, db.users[0], q);
    MovedIntoQuota(db, 0, q);
  }

  /** Over whole runs: in every interleaving in which nothing breaks the nesting, and so in every one without moves,
      whoever the code cuts off belongs to a group that has reached the documented quota. */
  lemma CutOffMeansGroupOverQuota(states: seq<State>, events: seq<Event>, base: int, i: nat, u: nat)
    requires Trace(states, events) && Init(states[0], base) && Nested(states[0].db) && i < |states|
    requires forall j :: 0 <= j < i ==> !Breaks(states[j], events[j])
    requires u < |states[i].db.users| && OverQuota(states[i].db, states[i].db.users[u])
    ensures GroupOverQuota(states[i].db, states[i].db.users[u])
  {
    TraceIsGood(states, events, base, i);
    NestedUntilBroken(states, events, base, i);
    NeverCutOffEarly(states[i].db, u);
  }
}
