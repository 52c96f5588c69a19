/** The product record of the store, the filter state it is listed under,
    and the inline predicates and comparator of the products slice. */
module Catalog {
  import opened Wrappers
  import opened Text

  /** The top of the price slider; {0, MAX_PRICE} is the "no price
      restriction" range. */
  const MAX_PRICE: int := 9999

  /** The pricing enum; its numbers are the codes the filters compare with. */
  datatype PricingOption = PAID | FREE | VIEW_ONLY {
    function Code(): (c: int)
      ensures 0 <= c <= 2
    {
      match this
      case PAID => 0
      case FREE => 1
      case VIEW_ONLY => 2
    }
  }

  /** The enum value whose number is `c`. */
  function FromCode(c: int): (o: PricingOption)
    requires 0 <= c <= 2
    ensures o.Code() == c
  {
    if c == 0 then PAID else if c == 1 then FREE else VIEW_ONLY
  }

  /** Enum values and their codes are in one-to-one correspondence. */
  lemma CodeRoundTrip(o: PricingOption)
    ensures FromCode(o.Code()) == o
  {
  }

  /** A product; prices are whole amounts and `price` may be absent. */
  datatype Product = Product(
    id: string,
    photo: string,
    userName: string,
    title: string,
    pricingOption: PricingOption,
    price: Option<int>)

  /** The three category check boxes. */
  datatype Filters = Filters(paid: bool, free: bool, viewOnly: bool)

  datatype PriceRange = PriceRange(min: int, max: int)

  datatype SortBy = Name | HigherPrice | LowerPrice

  const NO_FILTERS: Filters := Filters(false, false, false)

  const DEFAULT_PRICE_RANGE: PriceRange := PriceRange(0, MAX_PRICE)

  predicate HasFilters(f: Filters) {
    f.paid || f.free || f.viewOnly
  }

  /** The check box that belongs to a pricing option. */
  predicate FlagFor(f: Filters, o: PricingOption) {
    match o
    case PAID => f.paid
    case FREE => f.free
    case VIEW_ONLY => f.viewOnly
  }

  /** The category pass of `applyFilters`: no box ticked lets everything
      through, otherwise the product's own box must be ticked. */
  function PricingMatch(f: Filters, p: Product): (r: bool)
    ensures r <==> !HasFilters(f) || FlagFor(f, p.pricingOption)
  {
    !HasFilters(f) ||
    (f.paid && p.pricingOption.Code() == 0) ||
    (f.free && p.pricingOption.Code() == 1) ||
    (f.viewOnly && p.pricingOption.Code() == 2)
  }

  /** The search pass for an already trimmed term: the empty term matches
      everything, any other must occur, ignoring case, in the title or in the
      creator's name. */
  predicate SearchMatch(term: string, p: Product)
    ensures SearchMatch(term, p) && term != "" ==> |term| <= |p.title| || |term| <= |p.userName|
  {
    term == "" ||
    Includes(ToLower(p.title), ToLower(term)) ||
    Includes(ToLower(p.userName), ToLower(term))
  }

  /** The search pass matches exactly the products whose lower-cased title
      or creator name has the lower-cased term at some index. */
  lemma SearchMatchIff(term: string, p: Product)
    ensures SearchMatch(term, p) <==>
      term == "" || Includes(ToLower(p.title), ToLower(term)) || Includes(ToLower(p.userName), ToLower(term))
    ensures SearchMatch(term, p) <==>
      || term == ""
      || (exists i :: OccursAt(ToLower(p.title), ToLower(term), i))
      || (exists i :: OccursAt(ToLower(p.userName), ToLower(term), i))
  {
    IncludesIff(ToLower(p.title), ToLower(term));
    IncludesIff(ToLower(p.userName), ToLower(term));
  }

  /** The price test: a product without a price always passes, a priced one
      must lie in the range, both ends included. */
  predicate InRange(r: PriceRange, p: Product)
    ensures r.max < r.min ==> (InRange(r, p) <==> p.price.None?)
  {
    p.price.None? || (r.min <= p.price.value && p.price.value <= r.max)
  }

  /** The price pass is skipped when the range is still {0, MAX_PRICE}. */
  predicate IsDefaultRange(r: PriceRange) {
    r.min == 0 && r.max == MAX_PRICE
  }

  /** The price the sort compares: the price of a paid product (0 when it
      has none), 0 for every other product. */
  function EffectivePrice(p: Product): (e: int)
    ensures p.pricingOption != PAID ==> e == 0
    ensures p.pricingOption == PAID && p.price.Some? ==> e == p.price.value
    ensures p.price.None? ==> e == 0
  {
    if p.pricingOption != PAID then 0
    else match p.price
      case Some(v) => v
      case None => 0
  }

  /** The sort comparator: negative when `a` goes first. */
  function Compare(s: SortBy, a: Product, b: Product): int
  {
    match s
    case Name => LexCompare(a.title, b.title)
    case HigherPrice => EffectivePrice(b) - EffectivePrice(a)
    case LowerPrice => EffectivePrice(a) - EffectivePrice(b)
  }

  /** `a` may stand before `b` in the order chosen by `s`. */
  predicate Leq(s: SortBy, a: Product, b: Product) {
    Compare(s, a, b) <= 0
  }

  /** `a` and `b` tie: the comparator cannot tell them apart. */
  predicate SameKey(s: SortBy, a: Product, b: Product) {
    Compare(s, a, b) == 0
  }

  /** What each sort key orders by: titles ascending, effective prices
      descending, effective prices ascending. */
  lemma LeqMeaning(s: SortBy, a: Product, b: Product)
    ensures s == Name ==> (Leq(s, a, b) <==> LexCompare(a.title, b.title) <= 0)
    ensures s == Name ==> (SameKey(s, a, b) <==> a.title == b.title)
    ensures s == HigherPrice ==> (Leq(s, a, b) <==> EffectivePrice(a) >= EffectivePrice(b))
    ensures s == LowerPrice ==> (Leq(s, a, b) <==> EffectivePrice(a) <= EffectivePrice(b))
    ensures s != Name ==> (SameKey(s, a, b) <==> EffectivePrice(a) == EffectivePrice(b))
  {
    LexCompareAntisymmetric(a.title, b.title);
  }

  /** Every sort key gives a total preorder whose ties are an equivalence:
      any two products compare, the order is transitive, and a tie is a tie
      in both directions. */
  lemma LeqTotalPreorder(s: SortBy, a: Product, b: Product, c: Product)
    ensures Leq(s, a, b) || Leq(s, b, a)
    ensures Leq(s, a, b) && Leq(s, b, c) ==> Leq(s, a, c)
    ensures SameKey(s, a, b) <==> Leq(s, a, b) && Leq(s, b, a)
  {
    LexCompareAntisymmetric(a.title, b.title);
    if s == Name && Leq(s, a, b) && Leq(s, b, c) {
      LexCompareTransitive(a.title, b.title, c.title);
    }
  }
}
