/** The products page's state handling: the two effects that keep the filter
    boxes and the search term in step with the address bar's query, the
    checkbox handler and the reset button.  The query is modelled as the
    ordered list of name/value entries a `URLSearchParams` holds. */
module ProductsPage {
  import opened Wrappers
  import opened Catalog
  import opened ProductsSlice

  type QueryParams = seq<(string, string)>

  /** `params.get(name)`: the value of the first entry with that name. */
  function Get(ps: QueryParams, name: string): (r: Option<string>)
    ensures r.None? <==> forall i :: 0 <= i < |ps| ==> ps[i].0 != name
    ensures r.Some? ==> (name, r.value) in ps
  {
    if ps == [] then None
    else if ps[0].0 == name then Some(ps[0].1)
    else Get(ps[1..], name)
  }

  /** Entry `i` is the first with the given name. */
  predicate FirstEntry(ps: QueryParams, name: string, i: int) {
    0 <= i < |ps| && ps[i].0 == name && forall j :: 0 <= j < i ==> ps[j].0 != name
  }

  /** With several entries of one name, `Get` reads the first of them. */
  lemma {:induction false} GetReadsFirstEntry(ps: QueryParams, name: string, i: int)
    requires FirstEntry(ps, name, i)
    ensures Get(ps, name) == Some(ps[i].1)
  {
    if i > 0 {
      GetReadsFirstEntry(ps[1..], name, i - 1);
    }
  }

  /** Removes every entry with the given name. */
  function RemoveName(ps: QueryParams, name: string): (r: QueryParams)
    ensures Get(r, name).None?
    ensures forall other :: other != name ==> Get(r, other) == Get(ps, other)
  {
    if ps == [] then []
    else if ps[0].0 == name then RemoveName(ps[1..], name)
    else [ps[0]] + RemoveName(ps[1..], name)
  }

  /** `params.set(name, value)`: the first entry with that name takes the
      value and the others with that name go; with none, the entry is
      appended. */
  function SetParam(ps: QueryParams, name: string, value: string): (r: QueryParams)
    ensures Get(r, name) == Some(value)
    ensures forall other :: other != name ==> Get(r, other) == Get(ps, other)
  {
    if ps == [] then [(name, value)]
    else if ps[0].0 == name then [(name, value)] + RemoveName(ps[1..], name)
    else [ps[0]] + SetParam(ps[1..], name, value)
  }

  /** The load effect's reading of one box: checked only by the exact
      value `true`. */
  predicate FlagParam(ps: QueryParams, name: string) {
    Get(ps, name) == Some("true")
  }

  /** The load effect's boxes, read from the query. */
  function ParseFilters(ps: QueryParams): (f: Filters)
    ensures f.paid <==> Get(ps, "Paid") == Some("true")
    ensures f.free <==> Get(ps, "Free") == Some("true")
    ensures f.viewOnly <==> Get(ps, "ViewOnly") == Some("true")
  {
    Filters(FlagParam(ps, "Paid"), FlagParam(ps, "Free"), FlagParam(ps, "ViewOnly"))
  }

  /** The load effect's search term: `params.get('search') || ''`. */
  function ParseSearch(ps: QueryParams): (term: string)
    ensures Get(ps, "search").None? ==> term == ""
    ensures Get(ps, "search").Some? ==> term == Get(ps, "search").value
  {
    match Get(ps, "search")
    case None => ""
    case Some(v) => v  // an empty value and `''` coincide
  }

  /** The serialise effect: one `set` per checked box, then the search term
      when it is not empty.  Reading the result back with the load effect
      gives the same boxes and term. */
  method SerializeFilters(f: Filters, term: string) returns (ps: QueryParams)
    ensures Get(ps, "Paid") == (if f.paid then Some("true") else None)
    ensures Get(ps, "Free") == (if f.free then Some("true") else None)
    ensures Get(ps, "ViewOnly") == (if f.viewOnly then Some("true") else None)
    ensures Get(ps, "search") == (if term != "" then Some(term) else None)
    ensures ParseFilters(ps) == f && ParseSearch(ps) == term
  {
    ps := [];
    ps := SetWhen(ps, f.paid, "Paid", "true");
    ps := SetWhen(ps, f.free, "Free", "true");
    ps := SetWhen(ps, f.viewOnly, "ViewOnly", "true");
    ps := SetWhen(ps, term != "", "search", term);
  }

  /** One guarded `params.set(name, value)` of the serialise effect. */
  method SetWhen(ps: QueryParams, cond: bool, name: string, value: string) returns (r: QueryParams)
    ensures Get(r, name) == if cond then Some(value) else Get(ps, name)
    ensures forall other :: other != name ==> Get(r, other) == Get(ps, other)
  {
    r := ps;
    if cond {
      r := SetParam(ps, name, value);
    }
  }

  /** The keys of the boxes object. */
  datatype FilterKey = Paid | Free | ViewOnly

  function Flag(f: Filters, k: FilterKey): bool {
    match k
    case Paid => f.paid
    case Free => f.free
    case ViewOnly => f.viewOnly
  }

  /** `handlePricingOptionChange`'s new boxes: the named box flipped. */
  function Toggle(f: Filters, k: FilterKey): (r: Filters)
    ensures Flag(r, k) == !Flag(f, k)
    ensures forall other :: other != k ==> Flag(r, other) == Flag(f, other)
  {
    match k
    case Paid => f.(paid := !f.paid)
    case Free => f.(free := !f.free)
    case ViewOnly => f.(viewOnly := !f.viewOnly)
  }

  /** Clicking the same box twice restores the boxes. */
  lemma ToggleTwice(f: Filters, k: FilterKey)
    ensures Toggle(Toggle(f, k), k) == f
  {
  }

  /** Clicks on different boxes commute. */
  lemma ToggleCommutes(f: Filters, j: FilterKey, k: FilterKey)
    ensures Toggle(Toggle(f, j), k) == Toggle(Toggle(f, k), j)
  {
  }

  /** The load effect: the boxes and the term read from the query. */
  method OnLoad(store: ProductsStore, ps: QueryParams)
    requires store.Valid()
    modifies store`loading, store`filters, store`searchTerm
    ensures store.Valid() && store.loading
    ensures store.filters == ParseFilters(ps) && store.searchTerm == ParseSearch(ps)
  {
    store.SetFilters(ParseFilters(ps));
    store.SetSearchTerm(ParseSearch(ps));
  }

  /** The serialise effect, run whenever the boxes or the term change: the
      query pushed to the address bar, then `applyFilters`.  The query read
      back gives the state it was written from. */
  method OnFiltersChanged(store: ProductsStore) returns (ps: QueryParams)
    requires store.Valid()
    modifies store`loading, store`filteredProducts
    ensures store.Valid() && !store.loading
    ensures ParseFilters(ps) == store.filters && ParseSearch(ps) == store.searchTerm
    ensures store.filteredProducts ==
      ApplyFiltersView(store.products, store.filters, store.searchTerm, store.priceRange, store.sortBy)
  {
    ps := SerializeFilters(store.filters, store.searchTerm);
    store.ApplyFilters();
  }

  /** `handlePricingOptionChange`. */
  method HandlePricingOptionChange(store: ProductsStore, k: FilterKey)
    requires store.Valid()
    modifies store`loading, store`filters
    ensures store.Valid() && store.loading
    ensures store.filters == Toggle(old(store.filters), k)
  {
    store.SetFilters(Toggle(store.filters, k));
  }

  /** `handleResetFilters`: the slice is reset and the query emptied (the
      address keeps only its path); the empty query reads back as the reset
      boxes and term. */
  method HandleResetFilters(store: ProductsStore) returns (ps: QueryParams)
    requires store.Valid()
    modifies store
    ensures store.Valid() && store.Snapshot() == AfterReset(old(store.Snapshot()))
    ensures ps == [] && ParseFilters(ps) == store.filters && ParseSearch(ps) == store.searchTerm
  {
    store.ResetFilters();
    ps := [];
  }
}
