/** The catalog client: the wire-to-domain mapping of a product, the two
    pricing-code helpers, and the module-level cache and in-flight flag that
    make concurrent callers share one request.  The request itself is not
    modelled: its outcome (a list, a timeout abort, any other error) is an
    input. */
module ProductsApi {
  import opened Wrappers
  import opened Catalog

  /** A pricing code as the endpoint sends it. */
  type WireCode = c: int | 0 <= c <= 2

  /** A product as the endpoint sends it. */
  datatype ApiProduct = ApiProduct(
    id: string,
    imagePath: string,
    creator: string,
    title: string,
    pricingOption: WireCode,
    price: Option<int>)

  /** The `.map` callback: the image path becomes the photo, the creator the
      user name; the code is taken as the store's enumeration value. */
  function ToProduct(a: ApiProduct): (p: Product)
    ensures p.id == a.id && p.photo == a.imagePath && p.userName == a.creator
    ensures p.title == a.title && p.price == a.price
    ensures p.pricingOption.Code() == a.pricingOption
  {
    Product(a.id, a.imagePath, a.creator, a.title, FromCode(a.pricingOption), a.price)
  }

  /** The endpoint's form of a product. */
  function ToApiProduct(p: Product): (a: ApiProduct)
    ensures a.id == p.id && a.imagePath == p.photo && a.creator == p.userName
    ensures a.title == p.title && a.price == p.price
    ensures a.pricingOption == p.pricingOption.Code()
  {
    ApiProduct(p.id, p.photo, p.userName, p.title, p.pricingOption.Code(), p.price)
  }

  /** The mapping loses nothing, in either direction. */
  lemma ProductMappingRoundTrip(a: ApiProduct, p: Product)
    ensures ToApiProduct(ToProduct(a)) == a
    ensures ToProduct(ToApiProduct(p)) == p
  {
    CodeRoundTrip(p.pricingOption);
  }

  /** `apiProducts.map(...)`: same length, same order, each product mapped. */
  function MapProducts(api: seq<ApiProduct>): (ps: seq<Product>)
    ensures |ps| == |api|
    ensures forall i :: 0 <= i < |api| ==> ps[i] == ToProduct(api[i])
  {
    if api == [] then [] else [ToProduct(api[0])] + MapProducts(api[1..])
  }

  function UnmapProducts(ps: seq<Product>): (api: seq<ApiProduct>)
    ensures |api| == |ps|
    ensures forall i :: 0 <= i < |ps| ==> api[i] == ToApiProduct(ps[i])
  {
    if ps == [] then [] else [ToApiProduct(ps[0])] + UnmapProducts(ps[1..])
  }

  /** Mapping a whole response and back gives the response. */
  lemma MapProductsRoundTrip(api: seq<ApiProduct>)
    ensures UnmapProducts(MapProducts(api)) == api
  {
    var back := UnmapProducts(MapProducts(api));
    forall i | 0 <= i < |api|
      ensures back[i] == api[i]
    {
      ProductMappingRoundTrip(api[i], ToProduct(api[i]));
    }
  }

  /** `mapPricingOptionFromNumber`: 1 is paid, 2 view-only, and 0 or any
      other number free. */
  function MapPricingOptionFromNumber(option: int): (o: PricingOption)
    ensures o == PAID <==> option == 1
    ensures o == VIEW_ONLY <==> option == 2
    ensures o == FREE <==> option != 1 && option != 2
  {
    match option
    case 0 => FREE
    case 1 => PAID
    case 2 => VIEW_ONLY
    case _ => FREE
  }

  /** `mapPricingOption`: the endpoint's string tags to a code, an absent or
      unknown tag being free (0). */
  function MapPricingOption(apiType: Option<string>): (code: WireCode)
    ensures code == 1 <==> apiType == Some("paid")
    ensures code == 2 <==> apiType == Some("view")
    ensures code == 0 <==> apiType != Some("paid") && apiType != Some("view")
  {
    match apiType
    case Some("paid") => 1
    case Some("free") => 0
    case Some("view") => 2
    case _ => 0
  }

  /** The tag each pricing option travels under. */
  function TagOf(o: PricingOption): string {
    match o
    case PAID => "paid"
    case FREE => "free"
    case VIEW_ONLY => "view"
  }

  /** The two helpers are inverse on the three tags: a tag turned into a
      code and the code into an option names the tag's option. */
  lemma TagCodeRoundTrip(o: PricingOption)
    ensures MapPricingOptionFromNumber(MapPricingOption(Some(TagOf(o)))) == o
  {
  }

  /** The helpers' numbering differs from the store's enumeration, which the
      product mapping uses: they agree only on the view-only code. */
  lemma FromNumberAgreesOnlyOnViewOnly(c: WireCode)
    ensures MapPricingOptionFromNumber(c) == FromCode(c) <==> c == 2
  {
  }

  /** How an issued request ended. */
  datatype FetchOutcome = Success(api: seq<ApiProduct>) | Aborted | Failed(error: string)

  /** How `fetchProducts` starts: with the cached list, by waiting on the
      request another caller has in flight, or by issuing one. */
  datatype Start = FromCache(products: seq<Product>) | AwaitInFlight | Issued

  /** What a caller of `fetchProducts` gets: a list, an error, or a wait
      that resolves only once the cache is filled. */
  datatype Reply = Resolved(products: seq<Product>) | Rejected(error: string) | Polling

  /** The module's `cachedProducts` and `isFetching`, with the fallback list
      built from the bundled fake products. `inFlight` counts the requests
      issued and not yet ended; `waiting` counts the callers whose
      `checkCache` loop is still polling. */
  class ProductsCache {
    var cachedProducts: Option<seq<Product>>
    var isFetching: bool
    ghost var inFlight: nat
    var waiting: nat
    const fakeProducts: seq<Product>

    /** Never two requests at once, a filled cache has none, and a caller
        waits only once the flag has been raised or a list is there for its
        next poll. */
    ghost predicate Valid()
      reads this
    {
      && inFlight <= 1
      && (inFlight == 1 ==> isFetching)
      && (cachedProducts.Some? ==> !isFetching && inFlight == 0)
      && (waiting > 0 ==> isFetching || cachedProducts.Some?)
    }

    /** The flag is raised only while a request is in flight. */
    ghost predicate Healthy()
      reads this
    {
      isFetching ==> inFlight == 1
    }

    /** A caller arriving now would wait: no list is cached and the flag is
        up, yet nothing is in flight that could ever fill the cache. */
    ghost predicate Stuck()
      reads this
    {
      cachedProducts.None? && isFetching && inFlight == 0
    }

    /** Callers are already polling for a list that nothing in flight will
        ever deliver. */
    ghost predicate Hung()
      reads this
    {
      waiting > 0 && cachedProducts.None? && inFlight == 0
    }

    /** In a healthy state no caller, whether arriving now or already
        polling, waits for a list that nothing will deliver: either a list
        is cached, or a request is in flight, or nobody waits and the next
        caller issues a request. */
    lemma HealthyIsNotStuck()
      requires Valid() && Healthy()
      ensures !Stuck() && !Hung()
      ensures cachedProducts.Some? || inFlight == 1 || (!isFetching && waiting == 0)
    {
    }

    /** The module's state at load; the fallback is `fakeProducts.map(...)`. */
    constructor (fakeApi: seq<ApiProduct>)
      ensures Valid() && Healthy()
      ensures cachedProducts.None? && !isFetching && inFlight == 0 && waiting == 0
      ensures fakeProducts == MapProducts(fakeApi)
    {
      cachedProducts := None;
      isFetching := false;
      inFlight := 0;
      waiting := 0;
      fakeProducts := MapProducts(fakeApi);
    }

    /** The synchronous head of `fetchProducts`: a cached list is returned
        at once; a raised flag makes the caller wait (its `checkCache` loop
        starts); otherwise the flag is raised and a request issued. */
    method BeginFetch() returns (s: Start)
      requires Valid()
      modifies this`isFetching, this`inFlight, this`waiting
      ensures Valid()
      ensures old(cachedProducts).Some? ==> s == FromCache(old(cachedProducts).value)
      ensures old(cachedProducts).None? && old(isFetching) ==> s == AwaitInFlight
      ensures s.Issued? <==> old(cachedProducts).None? && !old(isFetching)
      ensures s.Issued? ==> isFetching && inFlight == old(inFlight) + 1
      ensures !s.Issued? ==> isFetching == old(isFetching) && inFlight == old(inFlight)
      ensures waiting == if s.AwaitInFlight? then old(waiting) + 1 else old(waiting)
      ensures old(Healthy()) ==> Healthy()
      ensures old(Stuck()) ==> Stuck() && Hung()
    {
      if cachedProducts.Some? {
        return FromCache(cachedProducts.value);
      }
      if isFetching {
        waiting := waiting + 1;
        return AwaitInFlight;
      }
      isFetching := true;
      inFlight := inFlight + 1;
      return Issued;
    }

    /** One tick of a waiting caller's `checkCache`: the cached list once
        there is one, and then that caller stops waiting. */
    method CheckCache() returns (r: Option<seq<Product>>)
      requires Valid() && waiting > 0
      modifies this`waiting
      ensures Valid()
      ensures r == cachedProducts
      ensures waiting == if r.Some? then old(waiting) - 1 else old(waiting)
      ensures old(Hung()) ==> Hung() && r.None?
    {
      r := cachedProducts;
      if r.Some? {
        waiting := waiting - 1;
      }
    }

    /** The end of an issued request as the source writes it: a list is
        mapped, cached and returned and the flag lowered; an abort returns
        the fallback list and an error is rethrown, both leaving the flag
        raised and the cache empty. Waiting callers keep polling. */
    method CompleteFetchAsWritten(outcome: FetchOutcome) returns (r: Result<seq<Product>, string>)
      requires Valid() && inFlight == 1
      modifies this`cachedProducts, this`isFetching, this`inFlight
      ensures Valid() && inFlight == 0
      ensures outcome.Success? ==>
        && r == Ok(MapProducts(outcome.api))
        && cachedProducts == Some(MapProducts(outcome.api)) && !isFetching
      ensures outcome.Aborted? ==> r == Ok(fakeProducts)
      ensures outcome.Failed? ==> r == Err(outcome.error)
      ensures !outcome.Success? ==> cachedProducts.None? && isFetching
      ensures !outcome.Success? ==> Stuck() && (waiting > 0 ==> Hung())
    {
      inFlight := 0;
      match outcome
      case Success(api) =>
        var products := MapProducts(api);
        cachedProducts := Some(products);
        isFetching := false;
        r := Ok(products);
      case Aborted =>
        r := Ok(fakeProducts);
      case Failed(e) =>
        r := Err(e);
    }

    /** The end of an issued request with the flag lowered on every path and
        the `settled` callers that were waiting given the same result `r`:
        as written on success, but after an abort or an error nobody is left
        polling and a later call issues a new request. */
    method CompleteFetch(outcome: FetchOutcome) returns (r: Result<seq<Product>, string>, settled: nat)
      requires Valid() && inFlight == 1
      modifies this`cachedProducts, this`isFetching, this`inFlight, this`waiting
      ensures Valid() && Healthy() && inFlight == 0 && !isFetching
      ensures settled == old(waiting) && waiting == 0
      ensures !Stuck() && !Hung()
      ensures outcome.Success? ==>
        r == Ok(MapProducts(outcome.api)) && cachedProducts == Some(MapProducts(outcome.api))
      ensures outcome.Aborted? ==> r == Ok(fakeProducts) && cachedProducts.None?
      ensures outcome.Failed? ==> r == Err(outcome.error) && cachedProducts.None?
    {
      inFlight := 0;
      isFetching := false;
      settled := waiting;
      waiting := 0;
      match outcome
      case Success(api) =>
        var products := MapProducts(api);
        cachedProducts := Some(products);
        r := Ok(products);
      case Aborted =>
        r := Ok(fakeProducts);
      case Failed(e) =>
        r := Err(e);
    }

    /** `fetchProducts` for one caller as the source writes it, the request
        ending with `outcome` when one is issued. A caller finding the flag
        raised is left polling; after an abort or an error the client is
        stuck, and a caller arriving at a stuck client never resolves. */
    method FetchProductsAsWritten(outcome: FetchOutcome) returns (reply: Reply)
      requires Valid()
      modifies this`cachedProducts, this`isFetching, this`inFlight, this`waiting
      ensures Valid()
      ensures old(cachedProducts).Some? ==>
        reply == Resolved(old(cachedProducts).value) && cachedProducts == old(cachedProducts)
      ensures old(cachedProducts).None? && old(isFetching) ==>
        && reply == Polling && cachedProducts.None? && isFetching
        && inFlight == old(inFlight) && waiting == old(waiting) + 1
      ensures old(Stuck()) ==> reply == Polling && Hung()
      ensures old(cachedProducts).None? && !old(isFetching) && outcome.Success? ==>
        && reply == Resolved(MapProducts(outcome.api))
        && cachedProducts == Some(MapProducts(outcome.api)) && !isFetching
      ensures old(cachedProducts).None? && !old(isFetching) && outcome.Aborted? ==>
        reply == Resolved(fakeProducts) && Stuck()
      ensures old(cachedProducts).None? && !old(isFetching) && outcome.Failed? ==>
        reply == Rejected(outcome.error) && Stuck()
    {
      var s := BeginFetch();
      match s
      case FromCache(ps) =>
        reply := Resolved(ps);
      case AwaitInFlight =>
        reply := Polling;
      case Issued =>
        var r := CompleteFetchAsWritten(outcome);
        reply := if r.Ok? then Resolved(r.value) else Rejected(r.error);
    }

    /** `fetchProducts` with the corrected completion. A caller finding a
        request in flight is left polling until that request settles it;
        a healthy client stays healthy. */
    method FetchProducts(outcome: FetchOutcome) returns (reply: Reply)
      requires Valid()
      modifies this`cachedProducts, this`isFetching, this`inFlight, this`waiting
      ensures Valid()
      ensures old(Healthy()) ==> Healthy()
      ensures old(cachedProducts).Some? ==>
        reply == Resolved(old(cachedProducts).value) && cachedProducts == old(cachedProducts)
      ensures old(cachedProducts).None? && old(isFetching) ==>
        && reply == Polling && cachedProducts.None? && isFetching
        && inFlight == old(inFlight) && waiting == old(waiting) + 1
      ensures old(cachedProducts).None? && !old(isFetching) ==>
        !isFetching && inFlight == 0 && waiting == 0
      ensures old(cachedProducts).None? && !old(isFetching) && outcome.Success? ==>
        reply == Resolved(MapProducts(outcome.api)) && cachedProducts == Some(MapProducts(outcome.api))
      ensures old(cachedProducts).None? && !old(isFetching) && outcome.Aborted? ==>
        reply == Resolved(fakeProducts) && cachedProducts.None?
      ensures old(cachedProducts).None? && !old(isFetching) && outcome.Failed? ==>
        reply == Rejected(outcome.error) && cachedProducts.None?
    {
      var s := BeginFetch();
      match s
      case FromCache(ps) =>
        reply := Resolved(ps);
      case AwaitInFlight =>
        reply := Polling;
      case Issued =>
        var r, _ := CompleteFetch(outcome);
        reply := if r.Ok? then Resolved(r.value) else Rejected(r.error);
    }
  }

  /** Two callers arriving while nothing is cached share one request: the
      first issues it, the second waits, and once the request succeeds the
      second caller's poll sees the list the first one cached. */
  method TwoCallersOneRequest(fakeApi: seq<ApiProduct>, api: seq<ApiProduct>)
    returns (first: Start, second: Start, seen: Option<seq<Product>>)
    ensures first == Issued && second == AwaitInFlight
    ensures seen == Some(MapProducts(api))
  {
    var cache := new ProductsCache(fakeApi);
    first := cache.BeginFetch();
    second := cache.BeginFetch();
    var _ := cache.CompleteFetchAsWritten(Success(api));
    seen := cache.CheckCache();
  }

  /** As written, a timeout leaves the client stuck: the next caller waits
      on a request that is no longer in flight, and its polls see no list. */
  method StuckAfterTimeout(fakeApi: seq<ApiProduct>)
    returns (cache: ProductsCache, retry: Start, seen: Option<seq<Product>>)
    ensures retry == AwaitInFlight && seen.None? && cache.Hung()
  {
    cache := new ProductsCache(fakeApi);
    var first := cache.BeginFetch();
    var _ := cache.CompleteFetchAsWritten(Aborted);
    retry := cache.BeginFetch();
    seen := cache.CheckCache();
  }

  /** As written, a caller already waiting when the request times out is
      never resolved: the first caller gets the fallback list, the waiter's
      polls see no list, and nothing is left in flight. */
  method WaiterAfterTimeout(fakeApi: seq<ApiProduct>)
    returns (cache: ProductsCache, first: Result<seq<Product>, string>, seen: Option<seq<Product>>)
    ensures first == Ok(cache.fakeProducts) && seen.None? && cache.Hung()
  {
    cache := new ProductsCache(fakeApi);
    var s1 := cache.BeginFetch();
    var s2 := cache.BeginFetch();
    first := cache.CompleteFetchAsWritten(Aborted);
    seen := cache.CheckCache();
  }

  /** With the corrected completion, the caller after a timeout issues a
      fresh request. */
  method RetryAfterTimeout(fakeApi: seq<ApiProduct>) returns (retry: Start)
    ensures retry == Issued
  {
    var cache := new ProductsCache(fakeApi);
    var first := cache.BeginFetch();
    var _, _ := cache.CompleteFetch(Aborted);
    retry := cache.BeginFetch();
  }

  /** With the corrected completion, a caller already waiting when the
      request times out is settled with the same fallback list as the
      caller that issued it, and nobody is left polling. */
  method WaiterSharesOutcome(fakeApi: seq<ApiProduct>)
    returns (cache: ProductsCache, shared: Result<seq<Product>, string>, settled: nat)
    ensures shared == Ok(cache.fakeProducts) && settled == 1
    ensures cache.waiting == 0 && !cache.Hung() && !cache.Stuck()
  {
    cache := new ProductsCache(fakeApi);
    var s1 := cache.BeginFetch();
    var s2 := cache.BeginFetch();
    shared, settled := cache.CompleteFetch(Aborted);
  }
}
