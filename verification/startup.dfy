/** First start and reload of the database: seed and the id counter of loadDB (storage.go). */
module Startup {
  import opened Stores
  import opened Registry
  import opened Soundness

  /** Every id in use is at most `top`. */
  ghost predicate Covers(db: DB, top: int) {
    && (forall i :: 0 <= i < |db.users| ==> db.users[i].id <= top)
    && (forall i :: 0 <= i < |db.groups| ==> db.groups[i].id <= top)
    && (forall i :: 0 <= i < |db.rules| ==> db.rules[i].id <= top)
  }

  /** Some id in use is `top`. */
  ghost predicate IsUsed(db: DB, top: int) {
    || (exists i :: 0 <= i < |db.users| && db.users[i].id == top)
    || (exists i :: 0 <= i < |db.groups| && db.groups[i].id == top)
    || (exists i :: 0 <= i < |db.rules| && db.rules[i].id == top)
  }

  ghost predicate SoundWith(db: DB, t: int) {
    Sound(db.(seqNo := t))
  }

  /** A counter that covers every id makes a database sound if any counter does. */
  lemma CoverIsEnough(db: DB, top: int)
    requires Covers(db, top)
    ensures SoundWith(db, top) <==> exists t :: SoundWith(db, t)
  {
    forall t | SoundWith(db, t) ensures SoundWith(db, top) {
      assert UserIds(db.users, top) && GroupIds(db.groups, top) && RuleIds(db.rules, top);
    }
  }

  /** The counter after loading is the least number that is at least the stored one and covers every id. So
      whatever the file said, what is loaded is sound exactly if some counter could make it so. */
  method SyncIds(store: Store)
    modifies store`seqNo
    ensures store.seqNo >= old(store.seqNo) && Covers(store.View(), store.seqNo)
    ensures store.seqNo == old(store.seqNo) || IsUsed(store.View(), store.seqNo)
    ensures Sound(store.View()) <==> exists t :: SoundWith(old(store.View()), t)
  {
    var top := store.seqNo;
    var i := 0;
    while i < |store.users|
      invariant 0 <= i <= |store.users| && top >= store.seqNo
      invariant forall j :: 0 <= j < i ==> store.users[j].id <= top
      invariant top == store.seqNo || IsUsed(store.View(), top)
    {
      if store.users[i].id > top {
        top := store.users[i].id;
      }
      i := i + 1;
    }
    i := 0;
    while i < |store.groups|
      invariant 0 <= i <= |store.groups| && top >= store.seqNo
      invariant forall j :: 0 <= j < |store.users| ==> store.users[j].id <= top
      invariant forall j :: 0 <= j < i ==> store.groups[j].id <= top
      invariant top == store.seqNo || IsUsed(store.View(), top)
    {
      if store.groups[i].id > top {
        top := store.groups[i].id;
      }
      i := i + 1;
    }
    i := 0;
    while i < |store.rules|
      invariant 0 <= i <= |store.rules| && top >= store.seqNo
      invariant forall j :: 0 <= j < |store.users| ==> store.users[j].id <= top
      invariant forall j :: 0 <= j < |store.groups| ==> store.groups[j].id <= top
      invariant forall j :: 0 <= j < i ==> store.rules[j].id <= top
      invariant top == store.seqNo || IsUsed(store.View(), top)
    {
      if store.rules[i].id > top {
        top := store.rules[i].id;
      }
      i := i + 1;
    }
    CoverIsEnough(store.View(), top);
    store.seqNo := top;
  }

  /** The default group and the administrator, on whatever is already there. */
  function Seeded(db: DB): DB {
    var db := if db.groups == [] then
                db.(seqNo := db.seqNo + 1, groups := [Group(db.seqNo + 1, "默认组", 0, 0, true, 0)],
                    settings := db.settings.(defaultGroup := db.seqNo + 1))
              else db;
    if db.users == [] then NewUser(db, "admin", "admin123", Admin, db.settings.defaultGroup, true, 0, [], "") else db
  }

  method Seed(store: Store)
    modifies store
    ensures store.View() == Seeded(old(store.View()))
  {
    if |store.groups| == 0 {
      var id := store.NextID();
      store.groups := store.groups + [Group(id, "默认组", 0, 0, true, 0)];
      store.settings := store.settings.(defaultGroup := id);
    }
    if |store.users| == 0 {
      var id := store.NextID();
      store.users := store.users + [User(id, "admin", "admin123", Admin, store.settings.defaultGroup, true, 0, [], "", 0)];
    }
  }

  /** A fresh database is sound once seeded, with one administrator in the default group. */
  lemma SeededIsStarted(db: DB)
    requires db.seqNo == 0 && db.users == [] && db.groups == [] && db.rules == []
    ensures var db' := Seeded(db);
            && Started(db')
            && UserByName(db'.users, "admin").Some? && UserByName(db'.users, "admin").value.role == Admin
            && GroupByID(db'.groups, db'.settings.defaultGroup).Some?
  {
  }
}
