/** The public package catalogue: a search box that narrows the packages by name,
    description or price, six packages to a page, and deletion by id. */
module Catalogue {
  import opened JsText

  /** A price as the store returns it: a whole number, or text. */
  datatype Price = Amount(n: int) | Text(s: string)

  /** `sell_price.toString()` */
  function PriceText(p: Price): string {
    match p
    case Amount(n) => IntToString(n)
    case Text(s) => s
  }

  /** The fields of a package the catalogue logic reads; the others travel along
      untouched. */
  datatype PackageDetails = PackageDetails(id: int, name: string, description: string,
                                           sellPrice: Price, imageUrl: string)

  // ---------------------------------------------------------------------------
  // Search
  // ---------------------------------------------------------------------------

  /** The search predicate: the lower-cased query occurs somewhere in the lower-cased
      name, in the lower-cased description, or in the price written out. The empty
      query matches every package, and a package matches its own name. */
  predicate Matches(p: PackageDetails, query: string)
    ensures Matches(p, query) <==>
      exists i: nat :: OccursAt(ToLower(p.name), ToLower(query), i)
                       || OccursAt(ToLower(p.description), ToLower(query), i)
                       || OccursAt(PriceText(p.sellPrice), ToLower(query), i)
    ensures query == "" ==> Matches(p, query)
    ensures query == p.name ==> Matches(p, query)
  {
    var q := ToLower(query);
    IncludesIff(ToLower(p.name), q);
    IncludesIff(ToLower(p.description), q);
    IncludesIff(PriceText(p.sellPrice), q);
    IncludesEmpty(ToLower(p.name));
    Includes(ToLower(p.name), q) || Includes(ToLower(p.description), q)
    || Includes(PriceText(p.sellPrice), q)
  }

  /** `r` is `ps` with some elements dropped and the rest in their order. */
  predicate SubsequenceOf<T(==)>(r: seq<T>, ps: seq<T>)
    decreases |ps|
  {
    if r == [] then true
    else if ps == [] then false
    else (r[0] == ps[0] && SubsequenceOf(r[1..], ps[1..])) || SubsequenceOf(r, ps[1..])
  }

  /** `packages.filter(...)` with the search predicate: the packages kept are exactly
      those that match, in their order. */
  function Search(ps: seq<PackageDetails>, query: string): (r: seq<PackageDetails>)
    ensures forall x :: x in r <==> x in ps && Matches(x, query)
    ensures |r| <= |ps|
  {
    if ps == [] then []
    else (if Matches(ps[0], query) then [ps[0]] else []) + Search(ps[1..], query)
  }

  /** Filtering keeps every copy: a matching package occurs in the result as often as
      in the packages, any other not at all. */
  lemma {:induction false} SearchKeepsCopies(ps: seq<PackageDetails>, query: string)
    ensures forall x :: multiset(Search(ps, query))[x]
                        == if Matches(x, query) then multiset(ps)[x] else 0
  {
    if ps != [] {
      SearchKeepsCopies(ps[1..], query);
      assert ps == [ps[0]] + ps[1..];
    }
  }

  /** Filtering keeps the order: the result is a subsequence of the packages. */
  lemma {:induction false} SearchKeepsOrder(ps: seq<PackageDetails>, query: string)
    ensures SubsequenceOf(Search(ps, query), ps)
  {
    if ps != [] {
      SearchKeepsOrder(ps[1..], query);
      var rest := Search(ps[1..], query);
      if Matches(ps[0], query) {
        assert Search(ps, query) == [ps[0]] + rest;
        assert ([ps[0]] + rest)[1..] == rest;
      } else {
        assert Search(ps, query) == rest;
        SubsequenceSkip(rest, ps);
      }
    }
  }

  lemma SubsequenceSkip<T>(r: seq<T>, ps: seq<T>)
    requires ps != [] && SubsequenceOf(r, ps[1..])
    ensures SubsequenceOf(r, ps)
  {
  }

  /** An empty query keeps every package. */
  lemma {:induction false} EmptyQueryKeepsAll(ps: seq<PackageDetails>)
    ensures Search(ps, "") == ps
  {
    if ps != [] {
      assert ToLower("") == "";
      IncludesEmpty(ToLower(ps[0].name));
      EmptyQueryKeepsAll(ps[1..]);
      assert [ps[0]] + ps[1..] == ps;
    }
  }

  /** The search ignores the case of ASCII letters in the query. */
  lemma SearchIgnoresQueryCase(ps: seq<PackageDetails>, query: string)
    ensures Search(ps, ToLower(query)) == Search(ps, query)
  {
    ToLowerIdempotent(query);
    SearchSameQuery(ps, ToLower(query), query);
  }

  lemma {:induction false} SearchSameQuery(ps: seq<PackageDetails>, q1: string, q2: string)
    requires ToLower(q1) == ToLower(q2)
    ensures Search(ps, q1) == Search(ps, q2)
  {
    if ps != [] {
      SearchSameQuery(ps[1..], q1, q2);
    }
  }

  // ---------------------------------------------------------------------------
  // Pages
  // ---------------------------------------------------------------------------

  const PackagesPerPage := 6

  /** `Math.ceil(length / 6)`: the fewest pages of six that hold every package. */
  function TotalPages(length: nat): (pages: nat)
    ensures pages * PackagesPerPage >= length
    ensures pages == 0 || (pages - 1) * PackagesPerPage < length
  {
    (length + PackagesPerPage - 1) / PackagesPerPage
  }

  /** `filtered.slice((page - 1) * 6, page * 6)` */
  function PageOf(filtered: seq<PackageDetails>, page: int): (r: seq<PackageDetails>)
    ensures |r| <= PackagesPerPage
  {
    Slice(filtered, page * PackagesPerPage - PackagesPerPage, page * PackagesPerPage)
  }

  /** Page `page`, counted from one, holds the packages from position `6 * (page - 1)` on,
      up to six of them. */
  lemma PageContents(filtered: seq<PackageDetails>, page: nat)
    requires page >= 1
    ensures PageOf(filtered, page)
         == if (page - 1) * PackagesPerPage < |filtered|
            then filtered[(page - 1) * PackagesPerPage..Min(page * PackagesPerPage, |filtered|)]
            else []
  {
  }

  /** Pages `1` up to `count`, one after the other. */
  function Pages(filtered: seq<PackageDetails>, count: nat): seq<PackageDetails> {
    if count == 0 then [] else Pages(filtered, count - 1) + PageOf(filtered, count)
  }

  lemma {:induction false} PagesPrefix(filtered: seq<PackageDetails>, count: nat)
    ensures Pages(filtered, count) == filtered[..Min(count * PackagesPerPage, |filtered|)]
  {
    if count > 0 {
      PagesPrefix(filtered, count - 1);
      PageContents(filtered, count);
      var a, b := Min((count - 1) * PackagesPerPage, |filtered|), Min(count * PackagesPerPage, |filtered|);
      if (count - 1) * PackagesPerPage < |filtered| {
        assert filtered[..a] + filtered[a..b] == filtered[..b];
      }
    }
  }

  /** Pages one to `TotalPages` laid end to end give back the filtered list. */
  lemma PagesCoverAll(filtered: seq<PackageDetails>)
    ensures Pages(filtered, TotalPages(|filtered|)) == filtered
  {
    PagesPrefix(filtered, TotalPages(|filtered|));
  }

  // ---------------------------------------------------------------------------
  // Deletion
  // ---------------------------------------------------------------------------

  /** `packages.filter(pkg => pkg.id !== id)`: exactly the packages with that id go, the
      others stay in their order. */
  function WithoutId(ps: seq<PackageDetails>, id: int): (r: seq<PackageDetails>)
    ensures forall x :: x in r <==> x in ps && x.id != id
    ensures |r| <= |ps|
  {
    if ps == [] then []
    else (if ps[0].id != id then [ps[0]] else []) + WithoutId(ps[1..], id)
  }

  lemma {:induction false} WithoutIdKeepsOrder(ps: seq<PackageDetails>, id: int)
    ensures SubsequenceOf(WithoutId(ps, id), ps)
  {
    if ps != [] {
      WithoutIdKeepsOrder(ps[1..], id);
      var rest := WithoutId(ps[1..], id);
      if ps[0].id != id {
        assert WithoutId(ps, id) == [ps[0]] + rest;
        assert ([ps[0]] + rest)[1..] == rest;
      } else {
        assert WithoutId(ps, id) == rest;
        SubsequenceSkip(rest, ps);
      }
    }
  }

  /** Deleting keeps every copy of every other package. */
  lemma {:induction false} WithoutIdKeepsCopies(ps: seq<PackageDetails>, id: int)
    ensures forall x :: multiset(WithoutId(ps, id))[x]
                        == if x.id != id then multiset(ps)[x] else 0
  {
    if ps != [] {
      WithoutIdKeepsCopies(ps[1..], id);
      assert ps == [ps[0]] + ps[1..];
    }
  }

  /** Deleting an id no package carries changes nothing. */
  lemma {:induction false} WithoutAbsentId(ps: seq<PackageDetails>, id: int)
    requires forall k :: 0 <= k < |ps| ==> ps[k].id != id
    ensures WithoutId(ps, id) == ps
  {
    if ps != [] {
      WithoutAbsentId(ps[1..], id);
      assert [ps[0]] + ps[1..] == ps;
    }
  }

  // ---------------------------------------------------------------------------
  // The page component
  // ---------------------------------------------------------------------------

  class Home {
    var packages: seq<PackageDetails>
    var filteredPackages: seq<PackageDetails>
    var searchQuery: string
    var currentPage: int

    /** Once the filtering effect has run, the list shown is the search over the
        packages. */
    ghost predicate Valid()
      reads this
    {
      filteredPackages == Search(packages, searchQuery)
    }

    /** No packages, an empty query, page one. */
    constructor ()
      ensures Valid()
      ensures packages == [] && filteredPackages == [] && searchQuery == [] && currentPage == 1
    {
      packages, filteredPackages, searchQuery, currentPage := [], [], [], 1;
    }

    /** The effect on `[searchQuery, packages]`: filter again and go back to page one. */
    method FilterEffect()
      modifies this
      ensures Valid()
      ensures currentPage == 1
      ensures packages == old(packages) && searchQuery == old(searchQuery)
    {
      filteredPackages := Search(packages, searchQuery);
      currentPage := 1;
    }

    /** A successful package load replaces the packages; the effect then filters them
        with the current query. */
    method LoadPackages(data: seq<PackageDetails>)
      modifies this
      ensures Valid()
      ensures packages == data && searchQuery == old(searchQuery) && currentPage == 1
    {
      packages := data;
      filteredPackages := data;
      FilterEffect();
    }

    /** Typing in the search box: a new query filters again and goes back to page one; the
        same query does not re-run the effect and keeps the page. */
    method SetSearchQuery(query: string)
      requires Valid()
      modifies this
      ensures Valid()
      ensures searchQuery == query && packages == old(packages)
      ensures currentPage == if query == old(searchQuery) then old(currentPage) else 1
    {
      if query != searchQuery {
        searchQuery := query;
        FilterEffect();
      }
    }

    /** handlePageChange */
    method ChangePage(page: int)
      requires Valid()
      modifies this
      ensures Valid()
      ensures currentPage == page
      ensures packages == old(packages) && filteredPackages == old(filteredPackages)
      ensures searchQuery == old(searchQuery)
    {
      currentPage := page;
    }

    /** handleDelete: when the user confirms and the request goes out, the packages with
        that id are dropped and the effect filters again; otherwise nothing changes. */
    method Delete(id: int, confirmed: bool, requestThrew: bool)
      requires Valid()
      modifies this
      ensures Valid()
      ensures confirmed && !requestThrew ==>
                packages == WithoutId(old(packages), id) && currentPage == 1
      ensures !(confirmed && !requestThrew) ==>
                packages == old(packages) && currentPage == old(currentPage)
      ensures searchQuery == old(searchQuery)
    {
      if confirmed && !requestThrew {
        packages := WithoutId(packages, id);
        FilterEffect();
      }
    }

    /** The packages shown on the current page. */
    function CurrentPackages(): (r: seq<PackageDetails>)
      reads this
      ensures |r| <= PackagesPerPage
      ensures forall x :: x in r ==> x in filteredPackages
    {
      PageOf(filteredPackages, currentPage)
    }

    /** `totalPages`: the pagination control's page count; its pages laid end to end
        give back the filtered list. */
    function PageCount(): (n: nat)
      reads this
      ensures n * PackagesPerPage >= |filteredPackages|
      ensures n == 0 || (n - 1) * PackagesPerPage < |filteredPackages|
      ensures Pages(filteredPackages, n) == filteredPackages
    {
      PagesCoverAll(filteredPackages);
      TotalPages(|filteredPackages|)
    }
  }
}
