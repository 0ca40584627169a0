/** The connection records (AddRecord and Records in storage.go) and the query over them (handleAdminRecords in api.go). */
module Records {

  datatype Record = Record(id: int, user: int, port: int, proto: string, protocol: string, action: string)

  const DEFAULT_LIMIT := 3000

  /** The limit AddRecord works with. */
  function EffectiveLimit(limit: int): nat {
    if limit <= 0 then DEFAULT_LIMIT else limit
  }

  /** The last `n` elements, or all of them when there are fewer. */
  function LastOf<T>(s: seq<T>, n: nat): seq<T> {
    if |s| > n then s[|s| - n..] else s
  }

  class RecordLog {
    var records: seq<Record>
    var seqNo: int
    var limit: int

    function View(): Log
      reads this
    {
      Log(records, seqNo, limit)
    }

    constructor (limit: int)
      ensures View() == Log([], 0, limit)
    {
      records, seqNo, this.limit := [], 0, limit;
    }

    method AddRecord(r: Record)
      modifies this`records, this`seqNo
      ensures View() == Next(old(View()), Add(r))
    {
      seqNo := seqNo + 1;
      records := records + [r.(id := seqNo)];
      var lim := limit;
      if lim <= 0 {
        lim := DEFAULT_LIMIT;
      }
      if |records| > lim {
        records := records[|records| - lim..];
      }
    }

    /** Newest first: the copy loop fills the result from its far end. */
    method Records() returns (out: seq<Record>)
      ensures out == Reversed(records)
    {
      var a := new Record[|records|](_ => Record(0, 0, 0, "", "", ""));
      var i := 0;
      while i < |records|
        invariant 0 <= i <= |records| == a.Length
        invariant forall j :: 0 <= j < i ==> a[|records| - 1 - j] == records[j]
      {
        a[|records| - 1 - i] := records[i];
        i := i + 1;
      }
      out := a[..];
      ReversedIndices(records);
      assert forall j :: 0 <= j < |records| ==> out[j] == records[|records| - 1 - j]
      by {
        forall j | 0 <= j < |records| ensures out[j] == records[|records| - 1 - j] {
          var x := |records| - 1 - j;
          assert a[|records| - 1 - x] == records[x];
        }
      }
    }

    /** The filtered query: newest matching records, stopping once `max` are found. */
    method Query(q: Filter, max: int) returns (out: seq<Record>)
      requires max >= 1
      ensures out == FirstOf(Matching(q, Reversed(records)), max)
    {
      var all := Records();
      out := [];
      var i := 0;
      while i < |all|
        invariant 0 <= i <= |all| && |out| < max
        invariant out == Matching(q, all[..i])
      {
        assert all[..i + 1] == all[..i] + [all[i]];
        MatchingAppends(q, all[..i], [all[i]]);
        if q.Accepts(all[i]) {
          out := out + [all[i]];
          if |out| >= max {
            assert all == all[..i + 1] + all[i + 1..];
            MatchingAppends(q, all[..i + 1], all[i + 1..]);
            return;
          }
        }
        i := i + 1;
      }
      assert all[..|all|] == all;
    }
  }

  /** The query parameters; an empty string or a number that is not positive does not constrain. */
  datatype Filter = Filter(proto: string, protocol: string, action: string, user: int, port: int) {
    predicate Accepts(r: Record) {
      && (proto != "" ==> r.proto == proto)
      && (protocol != "" ==> r.protocol == protocol)
      && (action != "" ==> r.action == action)
      && (user > 0 ==> r.user == user)
      && (port > 0 ==> r.port == port)
    }
  }

  function Reversed<T>(s: seq<T>): seq<T> {
    if s == [] then [] else [s[|s| - 1]] + Reversed(s[..|s| - 1])
  }

  lemma {:induction false} ReversedIndices<T>(s: seq<T>)
    ensures |Reversed(s)| == |s|
    ensures forall j :: 0 <= j < |s| ==> Reversed(s)[j] == s[|s| - 1 - j]
  {
    if s != [] { ReversedIndices(s[..|s| - 1]); }
  }

  function Matching(q: Filter, s: seq<Record>): seq<Record> {
    if s == [] then [] else (if q.Accepts(s[0]) then [s[0]] else []) + Matching(q, s[1..])
  }

  lemma Reassociate<T>(a: seq<T>, b: seq<T>, c: seq<T>)
    ensures a + (b + c) == (a + b) + c
  {
  }

  lemma {:induction false} MatchingAppends(q: Filter, a: seq<Record>, b: seq<Record>)
    ensures Matching(q, a + b) == Matching(q, a) + Matching(q, b)
  {
    if a == [] {
      assert a + b == b;
    } else {
      MatchingAppends(q, a[1..], b);
      assert (a + b)[0] == a[0] && (a + b)[1..] == a[1..] + b;
      Reassociate(if q.Accepts(a[0]) then [a[0]] else [], Matching(q, a[1..]), Matching(q, b));
    }
  }

  function FirstOf<T>(s: seq<T>, n: int): seq<T>
    requires n >= 0
  {
    if |s| > n then s[..n] else s
  }

  // ---------- whole runs ----------

  /** What happens to a log: a record arrives, or the administrator stores a new limit. */
  datatype Event = Add(r: Record) | SetLimit(limit: int)

  datatype Log = Log(records: seq<Record>, seqNo: int, limit: int)

  /** One event, as AddRecord and the settings page do it. */
  function Next(l: Log, e: Event): Log {
    match e
    case Add(r) => Log(LastOf(l.records + [r.(id := l.seqNo + 1)], EffectiveLimit(l.limit)), l.seqNo + 1, l.limit)
    case SetLimit(n) => l.(limit := n)
  }

  function After(limit: int, events: seq<Event>): Log {
    if events == [] then Log([], 0, limit)
    else Next(After(limit, events[..|events| - 1]), events[|events| - 1])
  }

  /** Every record that ever arrived, numbered from 1 in order of arrival. */
  ghost function History(events: seq<Event>): seq<Record> {
    if events == [] then []
    else
      var h := History(events[..|events| - 1]);
      match events[|events| - 1]
      case Add(r) => h + [r.(id := |h| + 1)]
      case SetLimit(_) => h
  }

  /** The limit in force when the last record was added. */
  ghost function LimitAtLastAdd(limit: int, events: seq<Event>): nat {
    if events == [] then 0
    else
      var before := events[..|events| - 1];
      if events[|before|].Add? then EffectiveLimit(After(limit, before).limit) else LimitAtLastAdd(limit, before)
  }

  ghost predicate IsSuffix<T>(s: seq<T>, t: seq<T>) {
    |s| <= |t| && s == t[|t| - |s|..]
  }

  /** `l` holds the end of history `h`, which is numbered from 1 without gaps. */
  ghost predicate Faithful(l: Log, h: seq<Record>) {
    && IsSuffix(l.records, h)
    && l.seqNo == |h|
    && (forall i :: 0 <= i < |h| ==> h[i].id == i + 1)
    && (h != [] ==> l.records != [])
  }

  lemma AddKeepsFaithful(l: Log, h: seq<Record>, r: Record)
    requires Faithful(l, h)
    ensures Faithful(Next(l, Add(r)), h + [r.(id := |h| + 1)])
    ensures |Next(l, Add(r)).records| <= EffectiveLimit(l.limit)
  {
  }

  /** The log always holds the newest records, consecutively numbered, and no more than the limit last used. */
  lemma {:induction false} LogIsRecentHistory(limit: int, events: seq<Event>)
    ensures Faithful(After(limit, events), History(events))
    ensures |After(limit, events).records| <= LimitAtLastAdd(limit, events)
  {
    if events != [] {
      var before := events[..|events| - 1];
      LogIsRecentHistory(limit, before);
      match events[|events| - 1]
      case SetLimit(_) =>
      case Add(r) => AddKeepsFaithful(After(limit, before), History(before), r);
    }
  }

  /** While the limit stays the same the log is exactly full: nothing is dropped early, nothing kept too long. */
  lemma {:induction false} SteadyLimitKeepsAllItCan(limit: int, events: seq<Event>)
    requires forall i :: 0 <= i < |events| ==> events[i].Add?
    ensures After(limit, events).limit == limit && |History(events)| == |events|
    ensures After(limit, events).records == LastOf(History(events), EffectiveLimit(limit))
  {
    if events != [] {
      var before := events[..|events| - 1];
      SteadyLimitKeepsAllItCan(limit, before);
      LogIsRecentHistory(limit, before);
      LastOfAppends(History(before), events[|before|].r.(id := |before| + 1), EffectiveLimit(limit));
    }
  }

  lemma LastOfAppends<T>(h: seq<T>, r: T, n: nat)
    requires n > 0
    ensures LastOf(LastOf(h, n) + [r], n) == LastOf(h + [r], n)
  {
  }

  /** A query answers exactly with matching records, newest first, and leaves one out only when it already has `max`. */
  lemma QueryMeaning(q: Filter, s: seq<Record>, max: nat)
    ensures var out := FirstOf(Matching(q, s), max);
            && |out| <= max
            && (forall r :: r in out ==> r in s && q.Accepts(r))
            && (|out| < max ==> forall r :: r in s && q.Accepts(r) ==> r in out)
  {
    MatchingMembers(q, s);
  }

  lemma {:induction false} MatchingMembers(q: Filter, s: seq<Record>)
    ensures forall r :: r in Matching(q, s) <==> r in s && q.Accepts(r)
  {
    if s != [] {
      MatchingMembers(q, s[1..]);
      assert s == [s[0]] + s[1..];
    }
  }

  ghost predicate Decreasing(s: seq<Record>) {
    forall i, j :: 0 <= i < j < |s| ==> s[i].id > s[j].id
  }

  lemma {:induction false} MatchingKeepsOrder(q: Filter, s: seq<Record>)
    requires Decreasing(s)
    ensures Decreasing(Matching(q, s))
  {
    if s != [] {
      MatchingKeepsOrder(q, s[1..]);
      MatchingMembers(q, s[1..]);
      var rest := Matching(q, s[1..]);
      forall i | 0 <= i < |rest| ensures s[0].id > rest[i].id {
        assert rest[i] in s[1..];
      }
    }
  }

  lemma LogIsDecreasing(limit: int, events: seq<Event>)
    ensures Decreasing(Reversed(After(limit, events).records))
  {
    LogIsRecentHistory(limit, events);
    var log, h := After(limit, events).records, History(events);
    ReversedIndices(log);
    assert forall i :: 0 <= i < |log| ==> log[i] == h[|h| - |log| + i];
  }

  /** Over any run: a query answers in strictly decreasing order of id, and whatever matching record of the log it leaves
      out is older than everything it answers with. */
  lemma QueryIsNewestFirst(limit: int, events: seq<Event>, q: Filter, max: nat)
    ensures var log := After(limit, events).records;
            var out := FirstOf(Matching(q, Reversed(log)), max);
            && Decreasing(out)
            && forall r :: r in log && q.Accepts(r) && r !in out ==> |out| == max && forall i :: 0 <= i < |out| ==> out[i].id > r.id
  {
    var log := After(limit, events).records;
    var all := Matching(q, Reversed(log));
    var out := FirstOf(all, max);
    LogIsDecreasing(limit, events);
    MatchingKeepsOrder(q, Reversed(log));
    MatchingMembers(q, Reversed(log));
    ReversedIndices(log);
    assert forall k :: 0 <= k < |out| ==> out[k] == all[k] && out[k] in out;
    forall r | r in log && q.Accepts(r) && r !in out ensures |out| == max && forall i :: 0 <= i < |out| ==> out[i].id > r.id {
      var k :| 0 <= k < |log| && log[k] == r;
      assert Reversed(log)[|log| - 1 - k] == r;
      assert r in all;
      var j :| 0 <= j < |all| && all[j] == r;
    }
  }
}
