/** The products slice: one record (the catalog, the visible list and the
    filter inputs) and one state-changing method per reducer. The visible
    lists the reducers compute are given by the view functions below, and
    the lemmas after them state what those lists contain and in which order. */
module ProductsSlice {
  import opened Wrappers
  import opened Text
  import opened Lists
  import opened Catalog
  import opened ProductSort

  // ---------------------------------------------------------------------
  // The passes of `applyFilters`
  // ---------------------------------------------------------------------

  /** The category and search passes of `applyFilters`, for a trimmed term. */
  function CategoryAndSearch(f: Filters, term: string): Product -> bool {
    p => PricingMatch(f, p) && SearchMatch(term, p)
  }

  /** The first filter of `applyFilters`: with no box ticked and no search
      term the catalog is copied as it is, otherwise it is filtered. */
  function CategorySearchPass(products: seq<Product>, f: Filters, term: string): seq<Product> {
    if !HasFilters(f) && term == "" then products
    else Filter(products, CategoryAndSearch(f, term))
  }

  function InRangeOf(r: PriceRange): Product -> bool {
    p => InRange(r, p)
  }

  /** The price pass, skipped while the range is the default one. */
  function PricePass(r: PriceRange, xs: seq<Product>): seq<Product> {
    if IsDefaultRange(r) then xs else Filter(xs, InRangeOf(r))
  }

  /** What `applyFilters` lets through, for a trimmed term. */
  predicate ApplyVisible(f: Filters, term: string, r: PriceRange, p: Product) {
    PricingMatch(f, p) && SearchMatch(term, p) && (IsDefaultRange(r) || InRange(r, p))
  }

  function ApplyVisibleOf(f: Filters, term: string, r: PriceRange): Product -> bool {
    p => ApplyVisible(f, term, r, p)
  }

  /** The list `applyFilters` stores: the catalog through the three passes,
      then sorted. */
  function ApplyFiltersView(products: seq<Product>, f: Filters, searchTerm: string, r: PriceRange, s: SortBy): seq<Product> {
    Sort(s, PricePass(r, CategorySearchPass(products, f, Trim(searchTerm))))
  }

  // ---------------------------------------------------------------------
  // The filter of `setPriceRange` and `updateFiltersAndApply`
  // ---------------------------------------------------------------------

  /** The filter written out in `setPriceRange` and again in
      `updateFiltersAndApply`: the range only takes part through the
      category test, so with no box ticked only the search decides. */
  function RangeCategoryMatch(f: Filters, term: string, r: PriceRange, p: Product): (b: bool)
    ensures b <==> SearchMatch(term, p) && (!HasFilters(f) || (FlagFor(f, p.pricingOption) && InRange(r, p)))
  {
    var priceInRange := InRange(r, p);
    var pricingMatch :=
      (f.paid && p.pricingOption.Code() == 0 && priceInRange) ||
      (f.free && p.pricingOption.Code() == 1 && priceInRange) ||
      (f.viewOnly && p.pricingOption.Code() == 2 && priceInRange);
    var searchMatch := SearchMatch(term, p);
    if !f.paid && !f.free && !f.viewOnly then searchMatch
    else pricingMatch && searchMatch
  }

  function RangeCategoryOf(f: Filters, term: string, r: PriceRange): Product -> bool {
    p => RangeCategoryMatch(f, term, r, p)
  }

  /** The list `setPriceRange` stores: filtered, not sorted. */
  function PriceRangeView(products: seq<Product>, f: Filters, searchTerm: string, r: PriceRange): (view: seq<Product>)
    ensures |view| <= |products|
  {
    Filter(products, RangeCategoryOf(f, Trim(searchTerm), r))
  }

  /** The list `updateFiltersAndApply` stores: the `setPriceRange` filter,
      then the price pass of `applyFilters`, then the sort. */
  function UpdateFiltersView(products: seq<Product>, f: Filters, searchTerm: string, r: PriceRange, s: SortBy): seq<Product> {
    Sort(s, PricePass(r, PriceRangeView(products, f, searchTerm, r)))
  }

  // ---------------------------------------------------------------------
  // The list of `setProducts`
  // ---------------------------------------------------------------------

  function HasTitle(): Product -> bool {
    (p: Product) => p.title != ""
  }

  /** The list `setProducts` stores: the products that have a title, sorted
      by title. */
  function SetProductsView(items: seq<Product>): seq<Product> {
    Sort(Name, Filter(items, HasTitle()))
  }

  // ---------------------------------------------------------------------
  // What the views contain
  // ---------------------------------------------------------------------

  /** `view` holds no product more often than `catalog` does. */
  predicate DrawnFrom(view: seq<Product>, catalog: seq<Product>) {
    multiset(view) <= multiset(catalog)
  }

  /** The three passes of `applyFilters` amount to one filter by
      `ApplyVisible`; in particular the shortcut that copies the catalog
      when nothing is selected changes nothing. */
  lemma {:induction false} ApplyPassesAsOneFilter(products: seq<Product>, f: Filters, term: string, r: PriceRange)
    ensures PricePass(r, CategorySearchPass(products, f, term)) == Filter(products, ApplyVisibleOf(f, term, r))
  {
    var first := CategorySearchPass(products, f, term);
    assert first == Filter(products, CategoryAndSearch(f, term)) by {
      if !HasFilters(f) && term == "" {
        FilterKeepsAll(products, CategoryAndSearch(f, term));
      }
    }
    if IsDefaultRange(r) {
      FilterAgree(products, CategoryAndSearch(f, term), ApplyVisibleOf(f, term, r));
    } else {
      FilterThenFilter(products, CategoryAndSearch(f, term), InRangeOf(r), ApplyVisibleOf(f, term, r));
    }
  }

  /** After `applyFilters` the visible list is a permutation of the
      catalog's products that pass all three passes (each kept as often as
      it occurs), a product is visible exactly when it is in the catalog and
      passes, the list is ordered by the sort key, and tied products keep
      their catalog order. */
  lemma ApplyFiltersSpec(products: seq<Product>, f: Filters, searchTerm: string, r: PriceRange, s: SortBy)
    ensures var view := ApplyFiltersView(products, f, searchTerm, r, s);
      var passed := Filter(products, ApplyVisibleOf(f, Trim(searchTerm), r));
      && multiset(view) == multiset(passed)
      && (forall p :: p in view <==> p in products && ApplyVisible(f, Trim(searchTerm), r, p))
      && Sorted(s, view)
      && (forall k :: Ties(s, k, view) == Ties(s, k, passed))
  {
    var passed := Filter(products, ApplyVisibleOf(f, Trim(searchTerm), r));
    ApplyPassesAsOneFilter(products, f, Trim(searchTerm), r);
    SortCorrect(s, passed);
    FilterCount(products, ApplyVisibleOf(f, Trim(searchTerm), r));
    assert forall p :: p in ApplyFiltersView(products, f, searchTerm, r, s) <==> p in multiset(passed);
  }

  /** With no box ticked, a blank search and the default range, `applyFilters`
      shows the whole catalog, only sorted. */
  lemma ApplyFiltersShowsAll(products: seq<Product>, f: Filters, searchTerm: string, r: PriceRange, s: SortBy)
    requires !HasFilters(f) && Trim(searchTerm) == "" && IsDefaultRange(r)
    ensures ApplyFiltersView(products, f, searchTerm, r, s) == Sort(s, products)
  {
  }

  /** `setPriceRange` keeps catalog order and keeps exactly the products
      that match the search and, when some box is ticked, belong to a ticked
      category and lie in the new range, each as often as the catalog
      holds it. */
  lemma PriceRangeSpec(products: seq<Product>, f: Filters, searchTerm: string, r: PriceRange)
    ensures var view := PriceRangeView(products, f, searchTerm, r);
      && IsSubsequence(view, products)
      && (forall p :: p in view <==>
           p in products && SearchMatch(Trim(searchTerm), p) &&
           (!HasFilters(f) || (FlagFor(f, p.pricingOption) && InRange(r, p))))
      && forall p :: multiset(view)[p] ==
           if RangeCategoryMatch(f, Trim(searchTerm), r, p) then multiset(products)[p] else 0
  {
    FilterIsSubsequence(products, RangeCategoryOf(f, Trim(searchTerm), r));
    FilterCount(products, RangeCategoryOf(f, Trim(searchTerm), r));
  }

  /** With no box ticked `setPriceRange` ignores the range it was given:
      any two ranges give the same list, the search-only filter. */
  lemma PriceRangeIgnoredWithoutFilters(products: seq<Product>, f: Filters, searchTerm: string, r1: PriceRange, r2: PriceRange)
    requires !HasFilters(f)
    ensures PriceRangeView(products, f, searchTerm, r1) == PriceRangeView(products, f, searchTerm, r2)
  {
    FilterAgree(products, RangeCategoryOf(f, Trim(searchTerm), r1), RangeCategoryOf(f, Trim(searchTerm), r2));
  }

  /** What `updateFiltersAndApply` lets through, for a trimmed term: what
      `applyFilters` lets through and, when some box is ticked, only
      products whose price is in the range, even the default one. */
  predicate UpdateVisible(f: Filters, term: string, r: PriceRange, p: Product) {
    ApplyVisible(f, term, r, p) && (!HasFilters(f) || InRange(r, p))
  }

  function UpdateVisibleOf(f: Filters, term: string, r: PriceRange): Product -> bool {
    p => UpdateVisible(f, term, r, p)
  }

  /** The `setPriceRange` filter followed by the price pass is one filter
      by `UpdateVisible`. */
  lemma {:induction false} UpdatePassesAsOneFilter(products: seq<Product>, f: Filters, term: string, r: PriceRange)
    ensures PricePass(r, Filter(products, RangeCategoryOf(f, term, r))) == Filter(products, UpdateVisibleOf(f, term, r))
  {
    if IsDefaultRange(r) {
      FilterAgree(products, RangeCategoryOf(f, term, r), UpdateVisibleOf(f, term, r));
    } else {
      FilterThenFilter(products, RangeCategoryOf(f, term, r), InRangeOf(r), UpdateVisibleOf(f, term, r));
    }
  }

  /** After `updateFiltersAndApply` the visible list is a permutation of
      the catalog's products that pass `UpdateVisible` (each kept as often
      as it occurs), a product is visible exactly when it is in the catalog
      and passes, the list is ordered by the sort key, and tied products
      keep their catalog order. */
  lemma UpdateFiltersSpec(products: seq<Product>, f: Filters, searchTerm: string, r: PriceRange, s: SortBy)
    ensures var view := UpdateFiltersView(products, f, searchTerm, r, s);
      var passed := Filter(products, UpdateVisibleOf(f, Trim(searchTerm), r));
      && multiset(view) == multiset(passed)
      && (forall p :: p in view <==> p in products && UpdateVisible(f, Trim(searchTerm), r, p))
      && Sorted(s, view)
      && (forall k :: Ties(s, k, view) == Ties(s, k, passed))
  {
    var t := Trim(searchTerm);
    var passed := Filter(products, UpdateVisibleOf(f, t, r));
    UpdatePassesAsOneFilter(products, f, t, r);
    SortCorrect(s, passed);
    FilterCount(products, UpdateVisibleOf(f, t, r));
    assert forall p :: p in UpdateFiltersView(products, f, searchTerm, r, s) <==> p in multiset(passed);
  }

  /** Away from the default range, `updateFiltersAndApply` computes the
      same list as `applyFilters` over the same inputs. */
  lemma UpdateAgreesWithApplyOffDefault(products: seq<Product>, f: Filters, searchTerm: string, r: PriceRange, s: SortBy)
    requires !IsDefaultRange(r)
    ensures UpdateFiltersView(products, f, searchTerm, r, s) == ApplyFiltersView(products, f, searchTerm, r, s)
  {
    var t := Trim(searchTerm);
    FilterThenFilter(products, RangeCategoryOf(f, t, r), InRangeOf(r), ApplyVisibleOf(f, t, r));
    ApplyPassesAsOneFilter(products, f, t, r);
  }

  /** `setProducts` shows exactly the products that have a title, each as
      often as it occurs, sorted by title with ties in payload order. */
  lemma SetProductsSpec(items: seq<Product>)
    ensures var view := SetProductsView(items);
      && multiset(view) == multiset(Filter(items, HasTitle()))
      && (forall p :: p in view <==> p in items && p.title != "")
      && Sorted(Name, view)
      && (forall k :: Ties(Name, k, view) == Ties(Name, k, Filter(items, HasTitle())))
  {
    SortCorrect(Name, Filter(items, HasTitle()));
    FilterCount(items, HasTitle());
    assert forall p :: p in SetProductsView(items) <==> p in multiset(Filter(items, HasTitle()));
  }

  /** The reducers keep the record's invariant: each list they compute is
      drawn from the catalog it was computed from. */
  lemma ApplyFiltersDrawn(products: seq<Product>, f: Filters, searchTerm: string, r: PriceRange, s: SortBy)
    ensures DrawnFrom(ApplyFiltersView(products, f, searchTerm, r, s), products)
  {
    ApplyFiltersSpec(products, f, searchTerm, r, s);
    FilterCount(products, ApplyVisibleOf(f, Trim(searchTerm), r));
  }

  lemma PriceRangeDrawn(products: seq<Product>, f: Filters, searchTerm: string, r: PriceRange)
    ensures DrawnFrom(PriceRangeView(products, f, searchTerm, r), products)
  {
    FilterCount(products, RangeCategoryOf(f, Trim(searchTerm), r));
  }

  lemma UpdateFiltersDrawn(products: seq<Product>, f: Filters, searchTerm: string, r: PriceRange, s: SortBy)
    ensures DrawnFrom(UpdateFiltersView(products, f, searchTerm, r, s), products)
  {
    var first := PriceRangeView(products, f, searchTerm, r);
    PriceRangeDrawn(products, f, searchTerm, r);
    FilterCount(first, InRangeOf(r));
    SortCorrect(s, PricePass(r, first));
  }

  lemma SetProductsDrawn(items: seq<Product>)
    ensures DrawnFrom(SetProductsView(items), items)
  {
    SetProductsSpec(items);
    FilterCount(items, HasTitle());
  }

  // ---------------------------------------------------------------------
  // The slice's record and its reducers
  // ---------------------------------------------------------------------

  /** The payload of `setProducts`, which is checked with `Array.isArray`. */
  datatype ProductsPayload = ProductList(items: seq<Product>) | NotAList

  /** A snapshot of every field of the record. */
  datatype SliceState = SliceState(
    products: seq<Product>,
    filteredProducts: seq<Product>,
    filters: Filters,
    priceRange: PriceRange,
    searchTerm: string,
    sortBy: SortBy,
    loading: bool,
    error: Option<string>)

  /** `initialState`. */
  const INITIAL_STATE: SliceState :=
    SliceState([], [], NO_FILTERS, DEFAULT_PRICE_RANGE, "", Name, false, None)

  /** What `resetFilters` leaves behind: default filter inputs, the catalog
      shown unsorted, `loading` set, the sort key kept. */
  function AfterReset(st: SliceState): (r: SliceState)
    ensures !HasFilters(r.filters) && r.searchTerm == "" && IsDefaultRange(r.priceRange)
    ensures r.filteredProducts == st.products && r.products == st.products
    ensures r.sortBy == st.sortBy && r.loading
  {
    st.(loading := true, filters := NO_FILTERS, searchTerm := "",
        priceRange := DEFAULT_PRICE_RANGE, filteredProducts := st.products)
  }

  /** Resetting twice leaves the record as resetting once. */
  lemma ResetIdempotent(st: SliceState)
    ensures AfterReset(AfterReset(st)) == AfterReset(st)
  {
  }

  class ProductsStore {
    var products: seq<Product>
    var filteredProducts: seq<Product>
    var filters: Filters
    var priceRange: PriceRange
    var searchTerm: string
    var sortBy: SortBy
    var loading: bool
    var error: Option<string>

    function Snapshot(): SliceState
      reads this
    {
      SliceState(products, filteredProducts, filters, priceRange, searchTerm, sortBy, loading, error)
    }

    /** Every reducer keeps the visible list drawn from the catalog: no
        product is shown more often than the catalog holds it. */
    ghost predicate Valid()
      reads this
    {
      DrawnFrom(filteredProducts, products)
    }

    constructor ()
      ensures Valid() && Snapshot() == INITIAL_STATE
    {
      products, filteredProducts := [], [];
      filters, priceRange := NO_FILTERS, DEFAULT_PRICE_RANGE;
      searchTerm, sortBy := "", Name;
      loading, error := false, None;
    }

    /** `setLoading`. */
    method SetLoading(b: bool)
      requires Valid()
      modifies this`loading
      ensures Valid() && loading == b
    {
      loading := b;
    }

    /** `setProducts`: a payload that is not a list empties both lists and
        leaves `loading` alone; a list becomes the catalog, and the visible
        list becomes its titled products sorted by title. */
    method SetProducts(payload: ProductsPayload)
      requires Valid()
      modifies this`products, this`filteredProducts, this`loading
      ensures Valid()
      ensures payload.NotAList? ==> products == [] && filteredProducts == [] && loading == old(loading)
      ensures payload.ProductList? ==>
        products == payload.items && filteredProducts == SetProductsView(payload.items) && !loading
    {
      match payload
      case NotAList =>
        products := [];
        filteredProducts := [];
      case ProductList(items) =>
        var view := SetProductsView(items);
        SetProductsDrawn(items);
        products := items;
        filteredProducts := view;
        loading := false;
    }

    /** `setFilters`: replaces the boxes and sets `loading`; the visible list
        is not recomputed. */
    method SetFilters(f: Filters)
      requires Valid()
      modifies this`loading, this`filters
      ensures Valid() && loading && filters == f
    {
      loading := true;
      filters := f;
    }

    /** `setSearchTerm`: stores the term untrimmed and sets `loading`. */
    method SetSearchTerm(term: string)
      requires Valid()
      modifies this`loading, this`searchTerm
      ensures Valid() && loading && searchTerm == term
    {
      loading := true;
      searchTerm := term;
    }

    /** `applyFilters`: clears `loading` and recomputes the visible list
        from the catalog and the current inputs. */
    method ApplyFilters()
      requires Valid()
      modifies this`loading, this`filteredProducts
      ensures Valid() && !loading
      ensures filteredProducts == ApplyFiltersView(products, filters, searchTerm, priceRange, sortBy)
    {
      var view := ApplyFiltersView(products, filters, searchTerm, priceRange, sortBy);
      ApplyFiltersDrawn(products, filters, searchTerm, priceRange, sortBy);
      loading := false;
      filteredProducts := view;
    }

    /** `setSortBy`: stores the key and sets `loading`; nothing is re-sorted. */
    method SetSortBy(s: SortBy)
      requires Valid()
      modifies this`loading, this`sortBy
      ensures Valid() && loading && sortBy == s
    {
      loading := true;
      sortBy := s;
    }

    /** `resetFilters`. */
    method ResetFilters()
      requires Valid()
      modifies this
      ensures Valid() && Snapshot() == AfterReset(old(Snapshot()))
    {
      loading := true;
      filters := NO_FILTERS;
      searchTerm := "";
      priceRange := DEFAULT_PRICE_RANGE;
      filteredProducts := products;
    }

    /** `setPriceRange`: stores the range and filters the catalog with it,
        without sorting; `loading` ends up cleared. */
    method SetPriceRange(r: PriceRange)
      requires Valid()
      modifies this`loading, this`priceRange, this`filteredProducts
      ensures Valid() && !loading && priceRange == r
      ensures filteredProducts == PriceRangeView(products, filters, searchTerm, r)
    {
      loading := true;
      priceRange := r;
      filteredProducts := PriceRangeView(products, filters, searchTerm, priceRange);
      loading := false;
      PriceRangeDrawn(products, filters, searchTerm, r);
    }

    /** `updateFiltersAndApply`: stores the boxes and the term, and the range
        only when the payload carries one, then filters and sorts; `loading`
        stays set. */
    method UpdateFiltersAndApply(f: Filters, term: string, range: Option<PriceRange>)
      requires Valid()
      modifies this`loading, this`filters, this`searchTerm, this`priceRange, this`filteredProducts
      ensures Valid() && loading && filters == f && searchTerm == term
      ensures priceRange == (if range.Some? then range.value else old(priceRange))
      ensures filteredProducts == UpdateFiltersView(products, f, term, priceRange, sortBy)
    {
      loading := true;
      filters := f;
      searchTerm := term;
      if range.Some? {
        priceRange := range.value;
      }
      UpdateFiltersDrawn(products, f, term, priceRange, sortBy);
      filteredProducts := UpdateFiltersView(products, f, term, priceRange, sortBy);
    }
  }
}
