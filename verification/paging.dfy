/** The rule list a user sees, one page at a time (handleUserPorts in api.go). */
module Paging {
  import opened Stores
  import opened Listing

  /** The page_size parameter: the word "all", a number, or anything else. */
  datatype SizeParam = All | Number(n: int) | Other

  datatype View = View(start: nat, end: nat, page: nat, totalPages: nat)

  function PageSize(p: SizeParam, total: nat): nat {
    match p
    case All => total
    case Number(n) => if n == 20 || n == 50 || n == 100 then n else 20
    case Other => 20
  }

  /** A page parameter that is missing, malformed or not positive means page 1. */
  function RequestedPage(p: SizeParam): (r: nat)
    ensures r >= 1 && (p.Number? && p.n > 0 ==> r == p.n)
  {
    if p.Number? && p.n > 0 then p.n else 1
  }

  function TotalPages(total: nat, pageSize: nat): nat {
    if pageSize > 0 then
      var n := (total + pageSize - 1) / pageSize;
      if n < 1 then 1 else n
    else 1
  }

  /** The window shown for a page request. Its bounds are always a legal slice of the list. */
  function Show(total: nat, pageSize: nat, requested: nat): (v: View)
    requires requested >= 1
    ensures v.start <= v.end <= total
    ensures 1 <= v.page <= v.totalPages == TotalPages(total, pageSize)
    ensures requested <= v.totalPages ==> v.page == requested
    ensures v.start < v.end || total == 0
  {
    var totalPages := TotalPages(total, pageSize);
    var page := if requested > totalPages then totalPages else requested;
    LastPageStartsInside(total, pageSize, page);
    if pageSize > 0 then
      var start := (page - 1) * pageSize;
      var end := start + pageSize;
      View(start, if end > total then total else end, page, totalPages)
    else
      View(0, total, page, totalPages)
  }

  lemma LastPageStartsInside(total: nat, pageSize: nat, page: nat)
    requires 1 <= page <= TotalPages(total, pageSize)
    ensures pageSize > 0 && total > 0 ==> 0 <= (page - 1) * pageSize < total
    ensures pageSize > 0 && page == TotalPages(total, pageSize) ==> total <= page * pageSize
    ensures total == 0 ==> page == 1
  {
  }

  lemma Divided(a: nat, b: nat)
    requires b > 0
    ensures a / b * b <= a < a / b * b + b
  {
  }

  lemma ProductGrows(a: int, b: int, c: nat)
    requires a <= b
    ensures a * c <= b * c
  {
  }

  /** Pages 1 to `k`, one after the other. */
  ghost function Pages<T>(rules: seq<T>, pageSize: nat, k: nat): seq<T> {
    if k == 0 then []
    else
      var v := Show(|rules|, pageSize, k);
      Pages(rules, pageSize, k - 1) + rules[v.start..v.end]
  }

  lemma {:induction false} PagesArePrefix<T>(rules: seq<T>, pageSize: nat, k: nat)
    requires pageSize > 0 && k <= TotalPages(|rules|, pageSize)
    ensures Pages(rules, pageSize, k) == rules[..(if k * pageSize < |rules| then k * pageSize else |rules|)]
  {
    if k > 0 {
      PagesArePrefix(rules, pageSize, k - 1);
      var v := Show(|rules|, pageSize, k);
      LastPageStartsInside(|rules|, pageSize, k);
      assert k * pageSize == (k - 1) * pageSize + pageSize;
      if |rules| > 0 {
        assert rules[..v.end] == rules[..v.start] + rules[v.start..v.end];
      }
    }
  }

  /** Reading every page once shows every rule once, in order, for every page size. */
  lemma PagesCoverTheList<T>(rules: seq<T>, param: SizeParam)
    ensures var size := PageSize(param, |rules|);
            Pages(rules, size, TotalPages(|rules|, size)) == rules
  {
    var size := PageSize(param, |rules|);
    var k := TotalPages(|rules|, size);
    if size > 0 {
      PagesArePrefix(rules, size, k);
      LastPageStartsInside(|rules|, size, k);
    } else {
      assert rules == [] && k == 1;
      assert Pages(rules, size, 1) == Pages(rules, size, 0) + rules[0..0];
    }
  }

  /** What a user sees over all pages: each of the user's rules as often as it exists, nobody else's, in order of number. */
  lemma UserSeesEveryRule(rules: seq<Rule>, user: int, param: SizeParam)
    ensures var own := PortsOfUser(rules, user);
            var size := PageSize(param, |own|);
            var seen := Pages(own, size, TotalPages(|own|, size));
            Ordered(seen) && forall p :: multiset(seen)[p] == if p.user == user then multiset(rules)[p] else 0
  {
    PagesCoverTheList(PortsOfUser(rules, user), param);
    PortsOfUserMeaning(rules, user);
  }

  /** "all" is one page, however many rules there are. */
  lemma AllIsOnePage(total: nat, requested: nat)
    requires requested >= 1
    ensures Show(total, PageSize(All, total), requested) == View(0, total, 1, 1)
  {
    if total > 0 {
      Divided(total + total - 1, total);
      var q := (total + total - 1) / total;
      if q >= 2 { ProductGrows(2, q, total); }
      if q <= 0 { ProductGrows(q, 0, total); }
    }
  }
}
