/** The HTTP wrapper's pure parts (query-string building, the response
    envelope guard and code check, the request interceptor's token and
    params handling, the verb wrappers' options) and its loading-overlay
    counter. */
module HttpConfig {
  import opened Wrappers

  // ---------------------------------------------------------------------
  // encodeURIComponent
  // ---------------------------------------------------------------------

  /** The characters `encodeURIComponent` leaves as they are. */
  predicate Unreserved(c: char) {
    ('A' <= c <= 'Z') || ('a' <= c <= 'z') || ('0' <= c <= '9') || c in "-_.!~*'()"
  }

  function HexDigit(n: int): (c: char)
    requires 0 <= n < 16
    ensures Unreserved(c)
  {
    "0123456789ABCDEF"[n]
  }

  /** The UTF-8 bytes of one character. */
  function Utf8(c: char): (bs: seq<int>)
    ensures 1 <= |bs| <= 4
    ensures forall i :: 0 <= i < |bs| ==> 0 <= bs[i] < 256
    ensures |bs| == 1 <==> (c as int) < 0x80
  {
    var n := c as int;
    if n < 0x80 then [n]
    else if n < 0x800 then [0xC0 + n / 64, 0x80 + n % 64]
    else if n < 0x10000 then [0xE0 + n / 4096, 0x80 + (n / 64) % 64, 0x80 + n % 64]
    else [0xF0 + n / 262144, 0x80 + (n / 4096) % 64, 0x80 + (n / 64) % 64, 0x80 + n % 64]
  }

  /** Each byte as `%` and two upper-case hex digits. */
  function PercentBytes(bs: seq<int>): (r: string)
    requires forall i :: 0 <= i < |bs| ==> 0 <= bs[i] < 256
    ensures |r| == 3 * |bs|
    ensures forall i :: 0 <= i < |r| ==> Unreserved(r[i]) || r[i] == '%'
  {
    if bs == [] then ""
    else ['%', HexDigit(bs[0] / 16), HexDigit(bs[0] % 16)] + PercentBytes(bs[1..])
  }

  function EncodeChar(c: char): (r: string)
    ensures Unreserved(c) ==> r == [c]
    ensures !Unreserved(c) ==> |r| >= 3
    ensures forall i :: 0 <= i < |r| ==> Unreserved(r[i]) || r[i] == '%'
  {
    if Unreserved(c) then [c] else PercentBytes(Utf8(c))
  }

  /** `encodeURIComponent`: the output holds only unreserved characters
      and `%`, and it is as long as the input exactly when every input
      character is unreserved. */
  function EncodeURIComponent(s: string): (r: string)
    ensures forall i :: 0 <= i < |r| ==> Unreserved(r[i]) || r[i] == '%'
    ensures |r| >= |s|
    ensures |r| == |s| <==> forall i :: 0 <= i < |s| ==> Unreserved(s[i])
  {
    if s == [] then ""
    else
      var r := EncodeChar(s[0]) + EncodeURIComponent(s[1..]);
      assert forall i :: 1 <= i < |s| ==> s[i] == s[1..][i - 1];
      r
  }

  /** A string comes out of the encoder unchanged exactly when all its
      characters are unreserved. */
  lemma {:induction false} EncodeFixedIff(s: string)
    ensures EncodeURIComponent(s) == s <==> forall i :: 0 <= i < |s| ==> Unreserved(s[i])
  {
    if s != [] {
      EncodeFixedIff(s[1..]);
      if forall i :: 0 <= i < |s| ==> Unreserved(s[i]) {
        assert forall i :: 0 <= i < |s[1..]| ==> Unreserved(s[1..][i]);
        assert EncodeURIComponent(s) == [s[0]] + s[1..];
      }
    }
  }

  // ---------------------------------------------------------------------
  // formatParams and createUrl
  // ---------------------------------------------------------------------

  /** A params object, its keys in `Object.keys` order and its values as
      the strings the template literal makes of them. */
  type Params = seq<(string, string)>

  function EncodePair(p: (string, string)): string {
    EncodeURIComponent(p.0) + "=" + EncodeURIComponent(p.1)
  }

  /** `formatParams`: the encoded pairs joined by `&`; empty exactly when
      there are no keys. */
  function FormatParams(ps: Params): (q: string)
    ensures q == "" <==> ps == []
  {
    if ps == [] then ""
    else if |ps| == 1 then EncodePair(ps[0])
    else EncodePair(ps[0]) + "&" + FormatParams(ps[1..])
  }

  function EncodePairs(ps: Params): (r: seq<string>)
    ensures |r| == |ps|
    ensures forall i :: 0 <= i < |ps| ==> r[i] == EncodePair(ps[i])
  {
    if ps == [] then [] else [EncodePair(ps[0])] + EncodePairs(ps[1..])
  }

  /** The pieces of `s` between occurrences of `sep`. */
  function Split(s: string, sep: char): (parts: seq<string>)
    ensures |parts| >= 1
  {
    if s == [] then [""]
    else
      var rest := Split(s[1..], sep);
      if s[0] == sep then [""] + rest else [[s[0]] + rest[0]] + rest[1..]
  }

  lemma {:induction false} SplitNoSeparator(a: string, sep: char)
    requires sep !in a
    ensures Split(a, sep) == [a]
  {
    if a != [] {
      SplitNoSeparator(a[1..], sep);
      assert [a[0]] + a[1..] == a;
    }
  }

  lemma {:induction false} SplitAtFirst(a: string, b: string, sep: char)
    requires sep !in a
    ensures Split(a + [sep] + b, sep) == [a] + Split(b, sep)
  {
    if a == [] {
      assert a + [sep] + b == [sep] + b;
      assert ([sep] + b)[1..] == b;
    } else {
      SplitAtFirst(a[1..], b, sep);
      assert (a + [sep] + b)[1..] == a[1..] + [sep] + b;
      assert [a[0]] + a[1..] == a;
    }
  }

  lemma EncodedHasNo(s: string, c: char)
    requires !Unreserved(c) && c != '%'
    ensures c !in EncodeURIComponent(s)
  {
  }

  /** Each pair splits at its one `=` into the encoded key and value. */
  lemma PairSplits(p: (string, string))
    ensures Split(EncodePair(p), '=') == [EncodeURIComponent(p.0), EncodeURIComponent(p.1)]
  {
    var k, v := EncodeURIComponent(p.0), EncodeURIComponent(p.1);
    EncodedHasNo(p.0, '=');
    EncodedHasNo(p.1, '=');
    SplitAtFirst(k, v, '=');
    SplitNoSeparator(v, '=');
  }

  /** The query splits at `&` into one encoded pair per key, in key order:
      no encoded key or value can contain the separator. */
  lemma {:induction false} FormatParamsSplits(ps: Params)
    requires ps != []
    ensures Split(FormatParams(ps), '&') == EncodePairs(ps)
  {
    var first := EncodePair(ps[0]);
    EncodedHasNo(ps[0].0, '&');
    EncodedHasNo(ps[0].1, '&');
    assert '&' !in first;
    if |ps| == 1 {
      SplitNoSeparator(first, '&');
    } else {
      FormatParamsSplits(ps[1..]);
      SplitAtFirst(first, FormatParams(ps[1..]), '&');
    }
  }

  /** `createUrl`: no params, or params giving an empty query, leave the
      address alone; otherwise the query follows a `?`. */
  function CreateUrl(url: string, params: Option<Params>): (r: string)
    ensures params.None? || params.value == [] ==> r == url
    ensures params.Some? && params.value != [] ==> r == url + "?" + FormatParams(params.value)
  {
    match params
    case None => url
    case Some(ps) =>
      var q := FormatParams(ps);
      if q != "" then url + "?" + q else url
  }

  // ---------------------------------------------------------------------
  // Responses
  // ---------------------------------------------------------------------

  /** A parsed JSON body. */
  datatype Json =
    | JNull
    | JBool(b: bool)
    | JNum(n: int)
    | JStr(s: string)
    | JArray(items: seq<Json>)
    | JObject(members: seq<(string, Json)>)

  /** A member of an object; a repeated key keeps its last value, as
      `JSON.parse` does. */
  function Lookup(members: seq<(string, Json)>, key: string): (r: Option<Json>)
    ensures r.None? <==> forall i :: 0 <= i < |members| ==> members[i].0 != key
    ensures r.Some? ==> (key, r.value) in members
  {
    if members == [] then None
    else
      var later := Lookup(members[1..], key);
      if later.Some? then later
      else if members[0].0 == key then Some(members[0].1)
      else None
  }

  predicate Has(j: Json, key: string) {
    j.JObject? && Lookup(j.members, key).Some?
  }

  /** `isApiResponse`: a non-null object (an array has none of these keys)
      with `code`, `message` and `data`. */
  predicate IsApiResponse(j: Json)
    ensures IsApiResponse(j) <==>
      && j.JObject?
      && (exists i :: 0 <= i < |j.members| && j.members[i].0 == "code")
      && (exists i :: 0 <= i < |j.members| && j.members[i].0 == "message")
      && (exists i :: 0 <= i < |j.members| && j.members[i].0 == "data")
  {
    j.JObject? && Has(j, "code") && Has(j, "message") && Has(j, "data")
  }

  function Field(j: Json, key: string): Json
    requires Has(j, key)
  {
    Lookup(j.members, key).value
  }

  /** JavaScript truthiness of a present value. */
  predicate Truthy(j: Json) {
    match j
    case JNull => false
    case JBool(b) => b
    case JNum(n) => n != 0
    case JStr(s) => s != ""
    case _ => true
  }

  /** `responseInterceptor`: a code other than 200 is an error carrying the
      message, or `"Error"` when the message is falsy; code 200 passes the
      whole envelope through. */
  function ResponseInterceptor(response: Json): (r: Result<Json, Json>)
    requires IsApiResponse(response)
    ensures r.Ok? <==> Field(response, "code") == JNum(200)
    ensures r.Ok? ==> r.value == response
    ensures r.Err? && Truthy(Field(response, "message")) ==> r.error == Field(response, "message")
    ensures r.Err? && !Truthy(Field(response, "message")) ==> r.error == JStr("Error")
  {
    if Field(response, "code") != JNum(200) then
      var m := Field(response, "message");
      Err(if Truthy(m) then m else JStr("Error"))
    else Ok(response)
  }

  /** The end of `fetchRequest` on a parsed body: an envelope goes through
      the interceptor, anything else is returned as it is. */
  function HandleResponse(body: Json): (r: Result<Json, Json>)
    ensures r.Err? <==> IsApiResponse(body) && Field(body, "code") != JNum(200)
    ensures r.Ok? ==> r.value == body
  {
    if IsApiResponse(body) then ResponseInterceptor(body) else Ok(body)
  }

  // ---------------------------------------------------------------------
  // Requests
  // ---------------------------------------------------------------------

  datatype HttpMethod = GET | POST | PUT | DELETE | PATCH

  type Headers = seq<(string, string)>

  /** The request options the interceptor sees. */
  datatype FetchOptions = FetchOptions(
    verb: Option<HttpMethod>,
    headers: Option<Headers>,
    params: Option<Params>,
    body: Option<Json>,
    requiresToken: Option<bool>)

  function HeaderValue(hs: Headers, name: string): (r: Option<string>)
    ensures r.None? <==> forall i :: 0 <= i < |hs| ==> hs[i].0 != name
  {
    if hs == [] then None
    else if hs[0].0 == name then Some(hs[0].1)
    else HeaderValue(hs[1..], name)
  }

  /** `{...headers, [name]: value}`: an existing header keeps its place and
      takes the value; a new one goes last. */
  function SetHeader(hs: Headers, name: string, value: string): (r: Headers)
    ensures HeaderValue(r, name) == Some(value)
    ensures forall other :: other != name ==> HeaderValue(r, other) == HeaderValue(hs, other)
    ensures HeaderValue(hs, name).Some? ==> |r| == |hs|
    ensures HeaderValue(hs, name).None? ==> r == hs + [(name, value)]
  {
    if hs == [] then [(name, value)]
    else if hs[0].0 == name then [(name, value)] + hs[1..]
    else [hs[0]] + SetHeader(hs[1..], name, value)
  }

  /** A present header reads as the value of its first entry. */
  lemma {:induction false} HeaderValueReadsFirst(hs: Headers, name: string, i: int)
    requires 0 <= i < |hs| && hs[i].0 == name
    requires forall j :: 0 <= j < i ==> hs[j].0 != name
    ensures HeaderValue(hs, name) == Some(hs[i].1)
  {
    if i > 0 {
      HeaderValueReadsFirst(hs[1..], name, i - 1);
    }
  }

  /** Setting a present header replaces its first entry in place and
      leaves every other entry where it was. */
  lemma {:induction false} SetHeaderInPlace(hs: Headers, name: string, value: string, i: int)
    requires 0 <= i < |hs| && hs[i].0 == name
    requires forall j :: 0 <= j < i ==> hs[j].0 != name
    ensures SetHeader(hs, name, value) == hs[i := (name, value)]
  {
    if i > 0 {
      SetHeaderInPlace(hs[1..], name, value, i - 1);
    }
  }

  lemma {:induction false} SetHeaderIdempotent(hs: Headers, name: string, value: string)
    ensures SetHeader(SetHeader(hs, name, value), name, value) == SetHeader(hs, name, value)
  {
    if hs != [] {
      SetHeaderIdempotent(hs[1..], name, value);
    }
  }

  /** Whether the interceptor adds the token: `requiresToken` defaults to
      true and an empty token is never sent. */
  predicate SendsToken(options: FetchOptions, token: string) {
    (options.requiresToken.None? || options.requiresToken.value) && token != ""
  }

  /** `requestInterceptor`, with the store's token as a parameter. */
  function RequestInterceptor(url: string, options: FetchOptions, token: string): (r: (string, FetchOptions))
    ensures SendsToken(options, token) ==>
      r.1.headers.Some? &&
      HeaderValue(r.1.headers.value, "Authorization") == Some("Bearer " + token)
    ensures !SendsToken(options, token) ==> r.1.headers == options.headers
    ensures SendsToken(options, token) ==> forall name :: name != "Authorization" ==>
      HeaderValue(r.1.headers.value, name) ==
        (if options.headers.Some? then HeaderValue(options.headers.value, name) else None)
    ensures options.verb == Some(GET) && options.params.Some? ==>
      r.0 == CreateUrl(url, options.params) && r.1.params.None?
    ensures !(options.verb == Some(GET) && options.params.Some?) ==>
      r.0 == url && r.1.params == options.params
    ensures r.1.verb == options.verb && r.1.body == options.body
    ensures r.1.requiresToken == options.requiresToken
  {
    var withToken :=
      if SendsToken(options, token) then
        var hs := if options.headers.Some? then options.headers.value else [];
        options.(headers := Some(SetHeader(hs, "Authorization", "Bearer " + token)))
      else options;
    if withToken.verb == Some(GET) && withToken.params.Some? then
      (CreateUrl(url, withToken.params), withToken.(params := None))
    else (url, withToken)
  }

  /** Intercepting an intercepted request changes nothing more. */
  lemma InterceptorIdempotent(url: string, options: FetchOptions, token: string)
    ensures
      var once := RequestInterceptor(url, options, token);
      RequestInterceptor(once.0, once.1, token) == once
  {
    if SendsToken(options, token) {
      var hs := if options.headers.Some? then options.headers.value else [];
      SetHeaderIdempotent(hs, "Authorization", "Bearer " + token);
    }
  }

  /** The options `get`, `post`, `put`, `del` and `patch` pass on: the
      caller's options with the verb, and the params (GET, DELETE) or the
      body (POST, PUT, PATCH) given. */
  function VerbOptions(m: HttpMethod, data: Option<Json>, params: Option<Params>, options: FetchOptions): (o: FetchOptions)
    ensures o.verb == Some(m) && o.headers == options.headers && o.requiresToken == options.requiresToken
    ensures m == GET || m == DELETE ==> o.params == params && o.body == options.body
    ensures m != GET && m != DELETE ==> o.body == data && o.params == options.params
  {
    match m
    case GET => options.(verb := Some(GET), params := params)
    case DELETE => options.(verb := Some(DELETE), params := params)
    case POST => options.(verb := Some(POST), body := data)
    case PUT => options.(verb := Some(PUT), body := data)
    case PATCH => options.(verb := Some(PATCH), body := data)
  }

  /** Only GET requests have their params folded into the address. */
  lemma OnlyGetFoldsParams(url: string, m: HttpMethod, data: Option<Json>, params: Params, options: FetchOptions, token: string)
    ensures
      var r := RequestInterceptor(url, VerbOptions(m, data, Some(params), options), token);
      (m == GET ==> r.0 == CreateUrl(url, Some(params)) && r.1.params.None?)
      && (m == DELETE ==> r.0 == url && r.1.params == Some(params))
  {
  }

  // ---------------------------------------------------------------------
  // The loading overlay
  // ---------------------------------------------------------------------

  /** The module's `requestCount` and the number of `#loading` overlays
      attached to the page. */
  class LoadingIndicator {
    var requestCount: int
    var overlays: nat

    /** The overlay is on the page, once, exactly while requests run. */
    ghost predicate Valid()
      reads this
    {
      requestCount >= 0 && overlays == (if requestCount > 0 then 1 else 0)
    }

    constructor ()
      ensures Valid() && requestCount == 0 && overlays == 0
    {
      requestCount := 0;
      overlays := 0;
    }

    /** `showLoading`: the overlay is created when no request was running. */
    method ShowLoading()
      modifies this
      ensures requestCount == old(requestCount) + 1
      ensures overlays == (if old(requestCount) == 0 then old(overlays) + 1 else old(overlays))
      ensures old(Valid()) ==> Valid()
    {
      if requestCount == 0 {
        overlays := overlays + 1;
      }
      requestCount := requestCount + 1;
    }

    /** `hideLoading`: the overlay is removed when the count comes back to
        zero and one is there. */
    method HideLoading()
      modifies this
      ensures requestCount == old(requestCount) - 1
      ensures overlays == (if requestCount == 0 && old(overlays) > 0 then old(overlays) - 1 else old(overlays))
      ensures old(Valid()) && old(requestCount) > 0 ==> Valid()
    {
      requestCount := requestCount - 1;
      if requestCount == 0 && overlays > 0 {
        overlays := overlays - 1;
      }
    }

    /** `requestWithLoading`: the verb's options are built and the request
        made, its result (`outcome`) returned or its error passed on, with
        one `showLoading` before and one `hideLoading` after on every path,
        so the count and the overlay are as they were. */
    method RequestWithLoading(m: HttpMethod, data: Option<Json>, params: Option<Params>,
                              options: FetchOptions, outcome: Result<Json, Json>)
      returns (sent: FetchOptions, r: Result<Json, Json>)
      requires Valid()
      modifies this
      ensures Valid() && requestCount == old(requestCount) && overlays == old(overlays)
      ensures sent == VerbOptions(m, data, params, options) && r == outcome
    {
      ShowLoading();
      sent := VerbOptions(m, data, params, options);
      r := outcome;
      HideLoading();
    }
  }

  /** Two overlapping requests share one overlay: it appears with the first
      and goes with the last. */
  method OverlappingRequests() returns (during: seq<nat>)
    ensures during == [1, 1, 1, 0]
  {
    var ui := new LoadingIndicator();
    ui.ShowLoading();
    var a := ui.overlays;
    ui.ShowLoading();
    var b := ui.overlays;
    ui.HideLoading();
    var c := ui.overlays;
    ui.HideLoading();
    during := [a, b, c, ui.overlays];
  }
}
