/** The rule lists as Ports and PortsOfUser return them, in order of number (storage.go). */
module Listing {
  import opened Stores
  import opened Soundness

  function Insert(sorted: seq<Rule>, p: Rule): seq<Rule> {
    if sorted == [] || sorted[|sorted| - 1].port <= p.port then sorted + [p]
    else Insert(sorted[..|sorted| - 1], p) + [sorted[|sorted| - 1]]
  }

  function Sorted(rules: seq<Rule>): seq<Rule> {
    if rules == [] then [] else Insert(Sorted(rules[..|rules| - 1]), rules[|rules| - 1])
  }

  function RulesOf(rules: seq<Rule>, user: int): seq<Rule> {
    if rules == [] then []
    else
      var p := rules[|rules| - 1];
      RulesOf(rules[..|rules| - 1], user) + (if p.user == user then [p] else [])
  }

  function PortsOfUser(rules: seq<Rule>, user: int): seq<Rule> {
    Sorted(RulesOf(rules, user))
  }

  ghost predicate Ordered(s: seq<Rule>) {
    forall i, j :: 0 <= i < j < |s| ==> s[i].port <= s[j].port
  }

  lemma {:induction false} InsertAddsOne(s: seq<Rule>, p: Rule)
    ensures multiset(Insert(s, p)) == multiset(s) + multiset{p}
  {
    if s != [] && s[|s| - 1].port > p.port {
      InsertAddsOne(s[..|s| - 1], p);
      assert s == s[..|s| - 1] + [s[|s| - 1]];
    }
  }

  lemma {:induction false} InsertKeepsOrder(s: seq<Rule>, p: Rule)
    requires Ordered(s)
    ensures Ordered(Insert(s, p))
  {
    if s != [] && s[|s| - 1].port > p.port {
      var pre, last := s[..|s| - 1], s[|s| - 1];
      InsertKeepsOrder(pre, p);
      InsertAddsOne(pre, p);
      LastIsLargest(pre, Insert(pre, p), p, last.port);
    }
  }

  lemma LastIsLargest(pre: seq<Rule>, r: seq<Rule>, p: Rule, port: int)
    requires multiset(r) == multiset(pre) + multiset{p} && p.port <= port
    requires forall i :: 0 <= i < |pre| ==> pre[i].port <= port
    ensures forall i :: 0 <= i < |r| ==> r[i].port <= port
  {
    forall i | 0 <= i < |r| ensures r[i].port <= port {
      assert r[i] in multiset(r);
    }
  }

  /** Sorting loses nothing, invents nothing, and puts the numbers in order. */
  lemma {:induction false} SortedIsOrdered(rules: seq<Rule>)
    ensures Ordered(Sorted(rules)) && multiset(Sorted(rules)) == multiset(rules)
  {
    if rules != [] {
      var pre, p := rules[..|rules| - 1], rules[|rules| - 1];
      SortedIsOrdered(pre);
      InsertKeepsOrder(Sorted(pre), p);
      InsertAddsOne(Sorted(pre), p);
      assert rules == pre + [p];
    }
  }

  ghost predicate Increasing(s: seq<Rule>) {
    forall i, j :: 0 <= i < j < |s| ==> s[i].port < s[j].port
  }

  lemma {:induction false} OneIncreasingOrder(a: seq<Rule>, b: seq<Rule>)
    requires |a| == |b| && Increasing(a) && Increasing(b) && forall x :: x in a <==> x in b
    ensures a == b
  {
    if a != [] {
      var n := |a| - 1;
      assert a[n] in b && b[n] in a;
      assert a[n] == b[n];
      forall x ensures x in a[..n] <==> x in b[..n] {
        assert x in a[..n] <==> x in a && x != a[n];
        assert x in b[..n] <==> x in b && x != b[n];
      }
      OneIncreasingOrder(a[..n], b[..n]);
    }
  }

  /** Numbers differ, so there is only one way to sort: how ties would be broken does not matter. */
  lemma SortedIsTheOnlyOrder(rules: seq<Rule>, s: seq<Rule>)
    requires RulePorts(rules) && Ordered(s) && multiset(s) == multiset(rules)
    ensures s == Sorted(rules)
  {
    SortedIsOrdered(rules);
    DifferentNumbers(rules, s);
    DifferentNumbers(rules, Sorted(rules));
    forall x ensures x in s <==> x in Sorted(rules) {
      assert x in multiset(s) <==> x in multiset(Sorted(rules));
    }
    assert |s| == |multiset(s)| == |Sorted(rules)|;
    OneIncreasingOrder(s, Sorted(rules));
  }

  lemma DifferentNumbers(rules: seq<Rule>, s: seq<Rule>)
    requires RulePorts(rules) && Ordered(s) && multiset(s) == multiset(rules)
    ensures Increasing(s)
  {
    forall i, j | 0 <= i < j < |s| ensures s[i].port < s[j].port {
      assert s[i] in multiset(s) && s[j] in multiset(s);
      if s[i].port == s[j].port {
        SameNumberSameRule(rules, s[i], s[j]);
        OccursTwice(s, i, j);
        OccursOnce(rules, s[i]);
      }
    }
  }

  lemma SameNumberSameRule(rules: seq<Rule>, p: Rule, q: Rule)
    requires RulePorts(rules) && p in rules && q in rules && p.port == q.port
    ensures p == q
  {
    var i :| 0 <= i < |rules| && rules[i] == p;
    var j :| 0 <= j < |rules| && rules[j] == q;
  }

  lemma OccursTwice(s: seq<Rule>, i: nat, j: nat)
    requires i < j < |s| && s[i] == s[j]
    ensures multiset(s)[s[i]] >= 2
  {
    assert s == s[..j] + s[j..];
    assert s[i] in s[..j] && s[i] in s[j..];
    assert multiset(s) == multiset(s[..j]) + multiset(s[j..]);
  }

  lemma {:induction false} OccursOnce(rules: seq<Rule>, p: Rule)
    requires RulePorts(rules) && p in rules
    ensures multiset(rules)[p] == 1
  {
    var pre, q := rules[..|rules| - 1], rules[|rules| - 1];
    assert rules == pre + [q];
    if q == p {
      assert forall i :: 0 <= i < |pre| ==> rules[i] == pre[i] && pre[i].port != q.port;
      assert p !in pre;
    } else {
      OccursOnce(pre, p);
    }
  }

  lemma {:induction false} RulesOfMembers(rules: seq<Rule>, user: int)
    ensures forall p :: multiset(RulesOf(rules, user))[p] == if p.user == user then multiset(rules)[p] else 0
  {
    if rules != [] {
      var pre, p := rules[..|rules| - 1], rules[|rules| - 1];
      RulesOfMembers(pre, user);
      assert rules == pre + [p];
    }
  }

  /** A user's list holds exactly the user's rules, each as often as it is there, in order of number. */
  lemma PortsOfUserMeaning(rules: seq<Rule>, user: int)
    ensures Ordered(PortsOfUser(rules, user))
    ensures forall p :: multiset(PortsOfUser(rules, user))[p] == if p.user == user then multiset(rules)[p] else 0
  {
    SortedIsOrdered(RulesOf(rules, user));
    RulesOfMembers(rules, user);
  }
}
