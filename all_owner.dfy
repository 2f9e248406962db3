/**
 * The gym-owner list page: case-insensitive search over four fields,
 * page counting, the slice shown for the current page, row numbering and
 * the guarded page and page-size updates.
 */
module AllOwner {
  import opened Common
  import opened Text

  datatype Owner = Owner(id: int, name: string, email: string, gymName: string, uniqueId: string, status: bool)

  /** The fixed list the page shows. */
  const MockOwners: seq<Owner> := [
    Owner(1, "John Doe", "john@example.com", "Iron Paradise", "GYM001", true),
    Owner(2, "Jane Smith", "jane@example.com", "Fit Zone", "GYM002", true),
    Owner(3, "Mike Johnson", "mike@example.com", "PowerHouse", "GYM003", false),
    Owner(4, "Sarah Williams", "sarah@example.com", "Muscle Den", "GYM004", true),
    Owner(5, "David Brown", "david@example.com", "Flex Hub", "GYM005", true),
    Owner(6, "Emma Davis", "emma@example.com", "Titan Gym", "GYM006", false)
  ]

  /** The lower-cased search term occurs in the lower-cased name, e-mail, gym name or unique id. */
  predicate Matches(owner: Owner, searchTerm: string)
  {
    var term := Lower(searchTerm);
    || Contains(Lower(owner.name), term)
    || Contains(Lower(owner.email), term)
    || Contains(Lower(owner.gymName), term)
    || Contains(Lower(owner.uniqueId), term)
  }

  /** `a` is obtained from `b` by deleting elements, keeping the order of the rest. */
  ghost predicate IsSubsequence<T>(a: seq<T>, b: seq<T>)
    decreases |b|
  {
    if a == [] then true
    else if b == [] then false
    else if a[0] == b[0] then IsSubsequence(a[1..], b[1..])
    else IsSubsequence(a, b[1..])
  }

  /** `owners.filter(...)`: the owners that match, in their original order. */
  function FilterOwners(owners: seq<Owner>, searchTerm: string): (r: seq<Owner>)
    ensures IsSubsequence(r, owners)
    ensures forall o :: o in r <==> o in owners && Matches(o, searchTerm)
    ensures forall o :: multiset(r)[o] == if Matches(o, searchTerm) then multiset(owners)[o] else 0
    decreases |owners|
  {
    if owners == [] then []
    else
      var rest := FilterOwners(owners[1..], searchTerm);
      assert owners == [owners[0]] + owners[1..];
      assert multiset(owners) == multiset([owners[0]]) + multiset(owners[1..]);
      if Matches(owners[0], searchTerm) then
        assert ([owners[0]] + rest)[1..] == rest;
        assert multiset([owners[0]] + rest) == multiset([owners[0]]) + multiset(rest);
        [owners[0]] + rest
      else rest
  }

  /** An empty search term keeps every owner. */
  lemma {:induction false} EmptySearchKeepsAll(owners: seq<Owner>)
    ensures FilterOwners(owners, "") == owners
    decreases |owners|
  {
    if owners != [] {
      EmptySearchKeepsAll(owners[1..]);
      assert Lower("") == "";
      ContainsEmpty(Lower(owners[0].name));
    }
  }

  /** `Math.ceil(total / perPage)`: the fewest pages of `perPage` rows that hold `total` rows. */
  function TotalPages(total: nat, perPage: nat): (pages: nat)
    requires perPage >= 1
    ensures total <= pages * perPage < total + perPage
  {
    var pages := (total + perPage - 1) / perPage;
    assert pages * perPage <= total + perPage - 1;
    assert (total + perPage - 1) - pages * perPage < perPage;
    pages
  }

  /** The index of the first row of `page` (pages count from 1). */
  function PageStart(page: nat, perPage: nat): nat
    requires page >= 1
  {
    (page - 1) * perPage
  }

  /**
   * `list.slice((page - 1) * perPage, page * perPage)`: the contiguous block
   * of at most `perPage` rows starting at the page's first index, cut short
   * by the end of the list, and empty past it.
   */
  function PageSlice<T>(list: seq<T>, page: nat, perPage: nat): (r: seq<T>)
    requires page >= 1 && perPage >= 1
    ensures |r| == if PageStart(page, perPage) >= |list| then 0 else Min(perPage, |list| - PageStart(page, perPage))
    ensures |r| <= perPage
    ensures forall k | 0 <= k < |r| :: PageStart(page, perPage) + k < |list| && r[k] == list[PageStart(page, perPage) + k]
  {
    var start := PageStart(page, perPage);
    assert page * perPage == start + perPage;
    list[Min(start, |list|)..Min(page * perPage, |list|)]
  }

  /** The "S no" column: `(currentPage - 1) * itemsPerPage + index + 1`. */
  function RowNumber(page: nat, perPage: nat, index: nat): int
    requires page >= 1
  {
    PageStart(page, perPage) + index + 1
  }

  /** The row number of a shown row is its 1-based position in the filtered list. */
  lemma RowNumberIsPosition<T>(list: seq<T>, page: nat, perPage: nat, index: nat)
    requires page >= 1 && perPage >= 1
    requires index < |PageSlice(list, page, perPage)|
    ensures 1 <= RowNumber(page, perPage, index) <= |list|
    ensures list[RowNumber(page, perPage, index) - 1] == PageSlice(list, page, perPage)[index]
  {
  }

  /** The "Showing ... to" bound: `Math.min(currentPage * itemsPerPage, total)`. */
  function ShowingTo(page: nat, perPage: nat, total: nat): int
  {
    Min(page * perPage, total)
  }

  /** On a page that has rows, "Showing from to" names exactly the rows of the slice. */
  lemma ShowingRangeMatchesSlice<T>(list: seq<T>, page: nat, perPage: nat)
    requires page >= 1 && perPage >= 1
    requires PageStart(page, perPage) < |list|
    ensures ShowingTo(page, perPage, |list|) - PageStart(page, perPage) == |PageSlice(list, page, perPage)|
  {
    assert page * perPage == PageStart(page, perPage) + perPage;
  }

  /** Every filtered row appears on exactly the page its index falls in, at the matching row number. */
  lemma EveryRowOnItsPage<T>(list: seq<T>, perPage: nat, j: nat)
    requires perPage >= 1 && j < |list|
    ensures var page := j / perPage + 1;
      && 1 <= page <= TotalPages(|list|, perPage)
      && j % perPage < |PageSlice(list, page, perPage)|
      && PageSlice(list, page, perPage)[j % perPage] == list[j]
      && RowNumber(page, perPage, j % perPage) == j + 1
  {
    var q, r := j / perPage, j % perPage;
    assert q * perPage + r == j;
    QuotientBelow(q, perPage, j, TotalPages(|list|, perPage));
    assert PageStart(q + 1, perPage) == q * perPage;
  }

  lemma QuotientBelow(q: nat, perPage: nat, j: nat, pages: nat)
    requires perPage >= 1 && q * perPage <= j < pages * perPage
    ensures q < pages
  {
    if q >= pages {
      MulMonotone(pages, q, perPage);
    }
  }

  lemma MulMonotone(a: nat, b: nat, c: nat)
    requires a <= b
    ensures a * c <= b * c
  {
    assert b * c == a * c + (b - a) * c;
  }

  /** A page past the last one shows nothing. */
  lemma StalePageIsEmpty<T>(list: seq<T>, page: nat, perPage: nat)
    requires page >= 1 && perPage >= 1
    requires page > TotalPages(|list|, perPage)
    ensures PageSlice(list, page, perPage) == []
  {
    MulMonotone(TotalPages(|list|, perPage), page - 1, perPage);
  }

  /** On first display every owner of the fixed list is shown, on a single page of ten. */
  lemma FirstViewShowsEveryOwner()
    ensures TotalPages(|FilterOwners(MockOwners, "")|, 10) == 1
    ensures PageSlice(FilterOwners(MockOwners, ""), 1, 10) == MockOwners
  {
    EmptySearchKeepsAll(MockOwners);
  }

  /** The page's state cells: search term, current page and page size over a fixed list of owners. */
  class OwnerTable {
    const owners: seq<Owner>
    var searchTerm: string
    var currentPage: nat
    var itemsPerPage: nat

    predicate Valid()
      reads this
    {
      currentPage >= 1 && itemsPerPage >= 1
    }

    constructor (owners: seq<Owner>)
      ensures Valid() && this.owners == owners
      ensures searchTerm == "" && currentPage == 1 && itemsPerPage == 10
    {
      this.owners := owners;
      searchTerm, currentPage, itemsPerPage := "", 1, 10;
    }

    /** `filteredOwners`. */
    function Filtered(): seq<Owner>
      reads this
    {
      FilterOwners(owners, searchTerm)
    }

    /** `totalPages`. */
    function Pages(): nat
      reads this
      requires Valid()
    {
      TotalPages(|Filtered()|, itemsPerPage)
    }

    /** `paginatedOwners`. */
    function Visible(): seq<Owner>
      reads this
      requires Valid()
    {
      PageSlice(Filtered(), currentPage, itemsPerPage)
    }

    /** A current page past the last one, as a narrower search can leave it, shows no rows. */
    lemma StaleViewIsEmpty()
      requires Valid() && currentPage > Pages()
      ensures Visible() == []
    {
      StalePageIsEmpty(Filtered(), currentPage, itemsPerPage);
    }

    /** `handlePageChange(newPage)`: moves only to an existing page, otherwise changes nothing. */
    method HandlePageChange(newPage: int)
      requires Valid()
      modifies this`currentPage
      ensures Valid()
      ensures currentPage == if 1 <= newPage <= old(Pages()) then newPage else old(currentPage)
    {
      if newPage >= 1 && newPage <= Pages() {
        currentPage := newPage;
      }
    }

    /** `handleItemsPerPageChange(n)`: a new page size, back to the first page. */
    method HandleItemsPerPageChange(newItemsPerPage: nat)
      requires Valid() && newItemsPerPage >= 1
      modifies this`itemsPerPage, this`currentPage
      ensures Valid()
      ensures itemsPerPage == newItemsPerPage && currentPage == 1
    {
      itemsPerPage := newItemsPerPage;
      currentPage := 1;
    }

    /** Typing in the search box: the term changes, the current page does not. */
    method SetSearchTerm(term: string)
      requires Valid()
      modifies this`searchTerm
      ensures Valid()
      ensures searchTerm == term && currentPage == old(currentPage) && itemsPerPage == old(itemsPerPage)
    {
      searchTerm := term;
    }
  }
}
