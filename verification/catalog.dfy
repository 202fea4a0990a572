/** The category page: the approved listings of one category, narrowed by a
    case-insensitive search and ordered by one of four sort modes. */
module Catalog {
  import opened Market
  import opened Text

  /** The fetch query: rows of the category that are approved, in table order. */
  function CategoryQuery(table: seq<Listing>, category: string): (r: seq<Listing>)
    ensures forall p :: p in r <==> p in table && p.category == category && p.approvalStatus == Approved
    ensures |r| <= |table|
  {
    if table == [] then []
    else
      assert table == [table[0]] + table[1..];
      var rest := CategoryQuery(table[1..], category);
      if table[0].category == category && table[0].approvalStatus == Approved then [table[0]] + rest else rest
  }

  /** The search predicate: the lower-cased query occurs in the lower-cased title, or in
      the lower-cased description when there is one. */
  function Matches(p: Listing, query: string): (b: bool)
    ensures b <==> ((exists i :: OccursAt(ToLower(p.title), ToLower(query), i))
                    || (p.description.Some? && exists i :: OccursAt(ToLower(p.description.value), ToLower(query), i)))
  {
    var q := ToLower(query);
    var inTitle := Includes(ToLower(p.title), q);
    var inDescription := p.description.Some? && Includes(ToLower(p.description.value), q);
    HitIffOccurs(p, query);
    inTitle || inDescription
  }

  /** A hit found by the `includes` scans is an occurrence, in the title or the description. */
  lemma HitIffOccurs(p: Listing, query: string)
    ensures var q := ToLower(query);
      (Includes(ToLower(p.title), q) || (p.description.Some? && Includes(ToLower(p.description.value), q)))
      <==> ((exists i :: OccursAt(ToLower(p.title), q, i))
            || (p.description.Some? && exists i :: OccursAt(ToLower(p.description.value), q, i)))
  {
    IncludesIffOccurs(ToLower(p.title), ToLower(query));
    if p.description.Some? {
      IncludesIffOccurs(ToLower(p.description.value), ToLower(query));
    }
  }

  /** The search ignores the case of the query. */
  lemma MatchesIgnoresQueryCase(p: Listing, query: string)
    ensures Matches(p, query) == Matches(p, ToLower(query))
  {
    ToLowerIdempotent(query);
  }

  /** Every listing matches the empty query. */
  lemma MatchesEmptyQuery(p: Listing)
    ensures Matches(p, "")
  {
    assert ToLower("") == "";
    IncludesEmpty(ToLower(p.title));
  }

  /** `products.filter(p => Matches(p, query))`: exactly the matching listings, each as
      often as in the input. */
  function SearchFilter(products: seq<Listing>, query: string): (r: seq<Listing>)
    ensures forall p :: multiset(r)[p] == if Matches(p, query) then multiset(products)[p] else 0
    ensures forall p :: p in r <==> p in products && Matches(p, query)
    ensures |r| <= |products|
  {
    if products == [] then []
    else
      assert products == [products[0]] + products[1..];
      var rest := SearchFilter(products[1..], query);
      if Matches(products[0], query) then [products[0]] + rest else rest
  }

  /** The empty query keeps every listing, so skipping the filter changes nothing. */
  lemma {:induction false} SearchFilterEmptyQuery(products: seq<Listing>)
    ensures SearchFilter(products, "") == products
  {
    if products != [] {
      MatchesEmptyQuery(products[0]);
      SearchFilterEmptyQuery(products[1..]);
      assert products == [products[0]] + products[1..];
    }
  }

  /** What the page sorts: the fetched list itself for an empty query, else the matches;
      either way, up to order, exactly the fetched listings that match. */
  function Selected(products: seq<Listing>, query: string): (r: seq<Listing>)
    ensures forall p :: multiset(r)[p] == if Matches(p, query) then multiset(products)[p] else 0
  {
    if query == "" then
      SearchFilterEmptyQuery(products);
      products
    else SearchFilter(products, query)
  }

  /** The empty-state message shows exactly when no fetched listing matches. */
  lemma EmptyStateIffNoMatch(products: seq<Listing>, query: string)
    ensures |Selected(products, query)| == 0 <==> forall i :: 0 <= i < |products| ==> !Matches(products[i], query)
  {
    var r := Selected(products, query);
    if forall i :: 0 <= i < |products| ==> !Matches(products[i], query) {
      if r != [] {
        assert multiset(r)[r[0]] > 0;
        assert r[0] in multiset(products);
      }
    } else {
      var i :| 0 <= i < |products| && Matches(products[i], query);
      assert products[i] in multiset(products);
      assert multiset(r)[products[i]] > 0;
    }
  }

  /** The sort modes of the select box; any other value sorts as "newest". */
  datatype SortKey = PriceLow | PriceHigh | Popular | Newest

  function SortKeyOf(sortBy: string): (k: SortKey)
    ensures k == PriceLow <==> sortBy == "price-low"
    ensures k == PriceHigh <==> sortBy == "price-high"
    ensures k == Popular <==> sortBy == "popular"
  {
    if sortBy == "price-low" then PriceLow
    else if sortBy == "price-high" then PriceHigh
    else if sortBy == "popular" then Popular
    else Newest
  }

  /** The integer each sort mode orders by, smallest first. */
  function Rank(p: Listing, key: SortKey): int {
    match key
    case PriceLow => p.price
    case PriceHigh => -p.price
    case Popular => -(Views(p) as int)
    case Newest => -p.createdAt
  }

  /** The comparator handed to `Array.prototype.sort` for each mode. Each one is
      consistent: it is the difference of the two listings' ranks. */
  function Compare(a: Listing, b: Listing, key: SortKey): (c: int)
    ensures c == Rank(a, key) - Rank(b, key)
  {
    match key
    case PriceLow => a.price - b.price
    case PriceHigh => b.price - a.price
    case Popular => Views(b) - Views(a)
    case Newest => b.createdAt - a.createdAt
  }

  /** A sequence the sort may return: no later element compares below an earlier one. */
  ghost predicate Sorted(s: seq<Listing>, key: SortKey) {
    forall i, j :: 0 <= i < j < |s| ==> Rank(s[i], key) <= Rank(s[j], key)
  }

  /** What each sort mode means for the result. */
  lemma SortedMeaning(s: seq<Listing>, sortBy: string)
    requires Sorted(s, SortKeyOf(sortBy))
    ensures sortBy == "price-low" ==> forall i, j :: 0 <= i < j < |s| ==> s[i].price <= s[j].price
    ensures sortBy == "price-high" ==> forall i, j :: 0 <= i < j < |s| ==> s[i].price >= s[j].price
    ensures sortBy == "popular" ==> forall i, j :: 0 <= i < j < |s| ==> Views(s[i]) >= Views(s[j])
    ensures SortKeyOf(sortBy) == Newest ==> forall i, j :: 0 <= i < j < |s| ==> s[i].createdAt >= s[j].createdAt
  {
    forall i, j | 0 <= i < j < |s| ensures Rank(s[i], SortKeyOf(sortBy)) <= Rank(s[j], SortKeyOf(sortBy)) {
    }
  }

  /** The first `n` elements are in order. */
  ghost predicate SortedPrefix(s: seq<Listing>, n: int, key: SortKey)
    requires 0 <= n <= |s|
  {
    forall k, l :: 0 <= k < l < n ==> Rank(s[k], key) <= Rank(s[l], key)
  }

  /** Midway through one insertion pass: `s[..i + 1]` is in order once `s[j]` is left
      out, and `s[j]` ranks no higher than anything after it up to `i`. */
  ghost predicate Inserting(s: seq<Listing>, i: int, j: int, key: SortKey)
    requires 0 <= j <= i < |s|
  {
    && (forall k, l :: 0 <= k < l <= i && k != j && l != j ==> Rank(s[k], key) <= Rank(s[l], key))
    && (forall l :: j < l <= i ==> Rank(s[j], key) <= Rank(s[l], key))
  }

  /** Swapping `s[j]` with a higher-ranked left neighbour moves the pass one step left. */
  lemma SwapStep(s: seq<Listing>, i: int, j: int, key: SortKey)
    requires 0 < j <= i < |s| && Inserting(s, i, j, key)
    requires Rank(s[j - 1], key) > Rank(s[j], key)
    ensures Inserting(s[j - 1 := s[j]][j := s[j - 1]], i, j - 1, key)
  {
    var t := s[j - 1 := s[j]][j := s[j - 1]];
    forall k, l | 0 <= k < l <= i && k != j - 1 && l != j - 1
      ensures Rank(t[k], key) <= Rank(t[l], key)
    {
      if l == j {
        assert Rank(s[k], key) <= Rank(s[j - 1], key);
      } else if k == j {
        assert Rank(s[j], key) <= Rank(s[l], key);
      }
    }
  }

  /** Swapping two neighbours keeps the elements. */
  lemma SwapKeepsElements(s: seq<Listing>, j: int)
    requires 0 < j < |s|
    ensures multiset(s[j - 1 := s[j]][j := s[j - 1]]) == multiset(s)
  {
    var u := s[j - 1 := s[j]];
    assert multiset(u) == multiset(s) - multiset{s[j - 1]} + multiset{s[j]};
  }

  /** A pass that stops at the front, or next to an element ranked no higher, leaves
      `s[..i + 1]` in order. */
  lemma FinishInsertion(s: seq<Listing>, i: int, j: int, key: SortKey)
    requires 0 <= j <= i < |s| && Inserting(s, i, j, key)
    requires j == 0 || Rank(s[j - 1], key) <= Rank(s[j], key)
    ensures SortedPrefix(s, i + 1, key)
  {
    forall k, l | 0 <= k < l <= i ensures Rank(s[k], key) <= Rank(s[l], key) {
      if l == j && k < j - 1 {
        assert Rank(s[k], key) <= Rank(s[j - 1], key);
      }
    }
  }

  /** `a.sort(comparator)`: an insertion sort in place, driven by the comparator. */
  method SortInPlace(a: array<Listing>, key: SortKey)
    modifies a
    ensures Sorted(a[..], key)
    ensures multiset(a[..]) == multiset(old(a[..]))
  {
    var i := 0;
    while i < a.Length
      invariant 0 <= i <= a.Length
      invariant SortedPrefix(a[..], i, key)
      invariant multiset(a[..]) == multiset(old(a[..]))
    {
      InsertLast(a, i, key);
      i := i + 1;
    }
  }

  /** One pass of the insertion sort: moves `a[i]` left past every element the
      comparator puts after it, so that `a[..i + 1]` is in order. */
  method InsertLast(a: array<Listing>, i: nat, key: SortKey)
    requires i < a.Length && SortedPrefix(a[..], i, key)
    modifies a
    ensures SortedPrefix(a[..], i + 1, key)
    ensures multiset(a[..]) == multiset(old(a[..]))
  {
    var j := i;
    while 0 < j && Compare(a[j - 1], a[j], key) > 0
      invariant 0 <= j <= i
      invariant Inserting(a[..], i, j, key)
      invariant multiset(a[..]) == multiset(old(a[..]))
    {
      ghost var s := a[..];
      SwapStep(s, i, j, key);
      SwapKeepsElements(s, j);
      a[j - 1], a[j] := a[j], a[j - 1];
      assert a[..] == s[j - 1 := s[j]][j := s[j - 1]];
      j := j - 1;
    }
    FinishInsertion(a[..], i, j, key);
  }

  /** The page's state: the fetched array `products`, the `filteredProducts` array the grid
      is rendered from, and the two controls. */
  class CategoryPage {
    const category: string
    var products: array<Listing>
    var filteredProducts: array<Listing>
    var searchQuery: string
    var sortBy: string

    constructor (category: string)
      ensures this.category == category
      ensures products.Length == 0 && filteredProducts.Length == 0
      ensures searchQuery == "" && sortBy == "newest"
    {
      this.category := category;
      products := new Listing[0];
      filteredProducts := new Listing[0];
      searchQuery := "";
      sortBy := "newest";
    }

    /** Runs the query; a failed query (no data) leaves the empty list. Storing the
        list re-runs the filter-and-sort effect. */
    method FetchProducts(db: Backend, failed: bool)
      modifies this
      ensures fresh(products)
      ensures var rows := if failed then [] else CategoryQuery(db.products, category);
        && multiset(products[..]) == multiset(rows)
        && (searchQuery != "" ==> products[..] == rows)
        && multiset(filteredProducts[..]) == multiset(Selected(rows, searchQuery))
      ensures Sorted(filteredProducts[..], SortKeyOf(sortBy))
      ensures searchQuery == "" ==> filteredProducts == products
      ensures searchQuery == old(searchQuery) && sortBy == old(sortBy)
    {
      var data: Option<seq<Listing>> := if failed then None else Some(CategoryQuery(db.products, category));
      var rows := data.GetOr([]);
      products := new Listing[|rows|](i requires 0 <= i < |rows| => rows[i]);
      assert products[..] == rows;
      FilterAndSortProducts();
    }

    /** Filters (only for a non-empty query) and sorts in place. With an empty query
        `filteredProducts` is the fetched array itself, which is reordered. */
    method FilterAndSortProducts()
      modifies this, products
      ensures products == old(products)
      ensures searchQuery == old(searchQuery) && sortBy == old(sortBy)
      ensures multiset(filteredProducts[..]) == multiset(Selected(old(products[..]), searchQuery))
      ensures filteredProducts.Length == |Selected(old(products[..]), searchQuery)|
      ensures Sorted(filteredProducts[..], SortKeyOf(sortBy))
      ensures searchQuery == "" ==> filteredProducts == products
      ensures searchQuery != "" ==> fresh(filteredProducts) && products[..] == old(products[..])
    {
      var filtered := products;
      if searchQuery != "" {
        var rows := SearchFilter(products[..], searchQuery);
        filtered := new Listing[|rows|](i requires 0 <= i < |rows| => rows[i]);
        assert filtered[..] == rows;
      }
      SortInPlace(filtered, SortKeyOf(sortBy));
      filteredProducts := filtered;
      assert |filteredProducts[..]| == |multiset(filteredProducts[..])|;
    }

    /** Typing in the search box; the effect then filters and sorts again. */
    method SetSearchQuery(query: string)
      modifies this, products
      ensures searchQuery == query && sortBy == old(sortBy) && products == old(products)
      ensures multiset(filteredProducts[..]) == multiset(Selected(old(products[..]), query))
      ensures Sorted(filteredProducts[..], SortKeyOf(sortBy))
      ensures query == "" ==> filteredProducts == products
      ensures query != "" ==> fresh(filteredProducts) && products[..] == old(products[..])
    {
      searchQuery := query;
      FilterAndSortProducts();
    }

    /** Choosing a sort mode; the effect then filters and sorts again. */
    method SetSortBy(mode: string)
      modifies this, products
      ensures sortBy == mode && searchQuery == old(searchQuery) && products == old(products)
      ensures multiset(filteredProducts[..]) == multiset(Selected(old(products[..]), searchQuery))
      ensures Sorted(filteredProducts[..], SortKeyOf(mode))
      ensures searchQuery == "" ==> filteredProducts == products
      ensures searchQuery != "" ==> fresh(filteredProducts) && products[..] == old(products[..])
    {
      sortBy := mode;
      FilterAndSortProducts();
    }
  }
}
