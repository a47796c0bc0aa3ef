/** The three tools the server exposes: each checks the caller's credential,
    then makes one outbound call with it and hands back the service's answer,
    or an error message naming the tool. */
module Tools {
  import opened Wrappers
  import opened Text
  import opened Auth
  import opened Options

  /** A record from the service, handed back to the caller unchanged. */
  datatype Record = Record(fields: map<string, string>)

  /** What the outbound client returns for one call, or the message of the
      exception it raises: the same shape as a tool's own result. */
  type Outcome<T> = Result<T, string>

  /** A Python value that is `None` or a list of records. */
  datatype Listing = NoneValue | ListValue(items: seq<Record>)

  /** The search client's response: either such a value itself, or an object
      exposing it as its `data` attribute. */
  datatype SearchResponse = Bare(value: Listing) | WithData(data: Listing)

  /** The outbound calls, each carrying the API key it is authenticated with. */
  datatype SearchRequest = SearchRequest(apiKey: string, query: string, limit: int)
  datatype ScrapeRequest = ScrapeRequest(apiKey: string, url: string, options: map<string, OptVal>)
  datatype CrawlRequest = CrawlRequest(apiKey: string, url: string, options: map<string, OptVal>)

  /** One tool invocation: the outbound request it made, if any, and what the
      caller receives. */
  datatype Run<+Req, +T> = Run(sent: Option<Req>, result: Result<T, string>)

  const SearchFailed: string := "Firecrawl search failed: "
  const ScrapeFailed: string := "Firecrawl scrape failed: "
  const CrawlFailed: string := "Firecrawl crawl failed: "

  /** `getattr(resp, "data", resp)`. */
  function DataOrSelf(resp: SearchResponse): Listing
  {
    match resp
    case Bare(v) => v
    case WithData(d) => d
  }

  /** Python truthiness of `None` or a list. */
  predicate Truthy(v: Listing)
  {
    v.ListValue? && |v.items| > 0
  }

  /** The search tool's result list, `getattr(resp, "data", resp) or []`. */
  function SearchResults(resp: SearchResponse): (results: seq<Record>)
    ensures resp.WithData? && resp.data.ListValue? ==> results == resp.data.items
    ensures resp.Bare? && resp.value.ListValue? ==> results == resp.value.items
    ensures resp == Bare(NoneValue) || resp == WithData(NoneValue) ==> results == []
  {
    var v := DataOrSelf(resp);
    if Truthy(v) then v.items else []
  }

  /** The `except` clause: an outbound failure becomes an error whose message
      is the tool's prefix followed by the original message. */
  function Wrap<T>(prefix: string, o: Outcome<T>): (r: Result<T, string>)
    ensures o.Success? <==> r.Success?
    ensures o.Success? ==> r.value == o.value
    ensures o.Failure? ==> StartsWith(r.error, prefix) && r.error[|prefix|..] == o.error
  {
    match o
    case Success(v) => Success(v)
    case Failure(m) => Failure(prefix + m)
  }

  /** `firecrawl_search`. */
  function Search(headers: map<string, string>, query: string, limit: int,
                  service: SearchRequest -> Outcome<SearchResponse>): (run: Run<SearchRequest, seq<Record>>)
    ensures ExtractToken(headers).Failure? ==> run == Run(None, Failure(ExtractToken(headers).error))
    ensures ExtractToken(headers).Success? ==> run.sent == Some(SearchRequest(ExtractToken(headers).value, query, limit))
    ensures run.sent.Some? && service(run.sent.value).Success? ==>
      run.result == Success(SearchResults(service(run.sent.value).value))
    ensures run.sent.Some? && service(run.sent.value).Failure? ==>
      run.result == Failure(SearchFailed + service(run.sent.value).error)
  {
    match ExtractToken(headers)
    case Failure(e) => Run(None, Failure(e))
    case Success(token) =>
      var req := SearchRequest(token, query, limit);
      var answer := match service(req)
        case Success(resp) => Success(SearchResults(resp))
        case Failure(m) => Failure(m);
      Run(Some(req), Wrap(SearchFailed, answer))
  }

  /** `firecrawl_scrape`. */
  function Scrape(headers: map<string, string>, url: string, settings: ScrapeSettings,
                  service: ScrapeRequest -> Outcome<Record>): (run: Run<ScrapeRequest, Record>)
    ensures ExtractToken(headers).Failure? ==> run == Run(None, Failure(ExtractToken(headers).error))
    ensures ExtractToken(headers).Success? ==>
      run.sent == Some(ScrapeRequest(ExtractToken(headers).value, url, ScrapeOptions(settings)))
    ensures run.sent.Some? && service(run.sent.value).Success? ==> run.result == Success(service(run.sent.value).value)
    ensures run.sent.Some? && service(run.sent.value).Failure? ==>
      run.result == Failure(ScrapeFailed + service(run.sent.value).error)
  {
    match ExtractToken(headers)
    case Failure(e) => Run(None, Failure(e))
    case Success(token) =>
      var req := ScrapeRequest(token, url, ScrapeOptions(settings));
      Run(Some(req), Wrap(ScrapeFailed, service(req)))
  }

  /** `firecrawl_crawl`. */
  function Crawl(headers: map<string, string>, url: string, settings: CrawlSettings,
                 service: CrawlRequest -> Outcome<Record>): (run: Run<CrawlRequest, Record>)
    ensures ExtractToken(headers).Failure? ==> run == Run(None, Failure(ExtractToken(headers).error))
    ensures ExtractToken(headers).Success? ==>
      run.sent == Some(CrawlRequest(ExtractToken(headers).value, url, CrawlOptions(settings)))
    ensures run.sent.Some? && service(run.sent.value).Success? ==> run.result == Success(service(run.sent.value).value)
    ensures run.sent.Some? && service(run.sent.value).Failure? ==>
      run.result == Failure(CrawlFailed + service(run.sent.value).error)
  {
    match ExtractToken(headers)
    case Failure(e) => Run(None, Failure(e))
    case Success(token) =>
      var req := CrawlRequest(token, url, CrawlOptions(settings));
      Run(Some(req), Wrap(CrawlFailed, service(req)))
  }

  /** The kinds of failure a caller can tell apart, recovered from a message. */
  datatype ErrorKind = AuthError | SearchError | ScrapeError | CrawlError | Unclassified

  function Classify(message: string): ErrorKind
  {
    if message == MalformedHeader || message == InvalidTokenFormat then AuthError
    else if StartsWith(message, SearchFailed) then SearchError
    else if StartsWith(message, ScrapeFailed) then ScrapeError
    else if StartsWith(message, CrawlFailed) then CrawlError
    else Unclassified
  }

  /** A wrapped outbound failure is never mistaken for a credential failure,
      whatever the service's own message says. */
  lemma {:induction false} WrappedIsNotAuth(prefix: string, m: string)
    requires prefix in {SearchFailed, ScrapeFailed, CrawlFailed}
    ensures prefix + m != MalformedHeader && prefix + m != InvalidTokenFormat
  {
    assert (prefix + m)[0] == 'F';
    assert MalformedHeader[0] == 'A';
    assert InvalidTokenFormat[0] == 'I';
  }

  /** Every search error is either the credential check's message, raised
      before any outbound call, or the search prefix on the service's message. */
  lemma {:induction false} SearchErrorKinds(headers: map<string, string>, query: string, limit: int,
                                            service: SearchRequest -> Outcome<SearchResponse>)
    requires Search(headers, query, limit, service).result.Failure?
    ensures var run := Search(headers, query, limit, service);
      Classify(run.result.error) == (if run.sent.None? then AuthError else SearchError)
  {
    var run := Search(headers, query, limit, service);
    if run.sent.Some? {
      var m := service(run.sent.value).error;
      WrappedIsNotAuth(SearchFailed, m);
      assert (SearchFailed + m)[..|SearchFailed|] == SearchFailed;
    }
  }

  lemma {:induction false} ScrapeErrorKinds(headers: map<string, string>, url: string, settings: ScrapeSettings,
                                            service: ScrapeRequest -> Outcome<Record>)
    requires Scrape(headers, url, settings, service).result.Failure?
    ensures var run := Scrape(headers, url, settings, service);
      Classify(run.result.error) == (if run.sent.None? then AuthError else ScrapeError)
  {
    var run := Scrape(headers, url, settings, service);
    if run.sent.Some? {
      var m := service(run.sent.value).error;
      WrappedIsNotAuth(ScrapeFailed, m);
      assert (ScrapeFailed + m)[..|ScrapeFailed|] == ScrapeFailed;
      assert (ScrapeFailed + m)[11] == 'c' != SearchFailed[11];
    }
  }

  lemma {:induction false} CrawlErrorKinds(headers: map<string, string>, url: string, settings: CrawlSettings,
                                           service: CrawlRequest -> Outcome<Record>)
    requires Crawl(headers, url, settings, service).result.Failure?
    ensures var run := Crawl(headers, url, settings, service);
      Classify(run.result.error) == (if run.sent.None? then AuthError else CrawlError)
  {
    var run := Crawl(headers, url, settings, service);
    if run.sent.Some? {
      var m := service(run.sent.value).error;
      WrappedIsNotAuth(CrawlFailed, m);
      assert (CrawlFailed + m)[..|CrawlFailed|] == CrawlFailed;
      assert (CrawlFailed + m)[10] == 'c' != SearchFailed[10] == ScrapeFailed[10];
    }
  }

  /** A rejected credential stops a tool before its outbound call: the
      service is never consulted, so any two services give the same run. */
  lemma AuthFailureMakesNoCall(headers: map<string, string>, query: string, limit: int, url: string,
                               scrape: ScrapeSettings, crawl: CrawlSettings,
                               s1: SearchRequest -> Outcome<SearchResponse>, s2: SearchRequest -> Outcome<SearchResponse>,
                               p1: ScrapeRequest -> Outcome<Record>, p2: ScrapeRequest -> Outcome<Record>,
                               c1: CrawlRequest -> Outcome<Record>, c2: CrawlRequest -> Outcome<Record>)
    requires ExtractToken(headers).Failure?
    ensures Search(headers, query, limit, s1) == Search(headers, query, limit, s2)
    ensures Scrape(headers, url, scrape, p1) == Scrape(headers, url, scrape, p2)
    ensures Crawl(headers, url, crawl, c1) == Crawl(headers, url, crawl, c2)
  {
  }

  /** A search whose response exposes `data = [r1, r2]` yields exactly those
      records, and a `None` response yields the empty list rather than an error. */
  lemma SearchExamples(headers: map<string, string>, query: string, r1: Record, r2: Record)
    requires ExtractToken(headers).Success?
    ensures Search(headers, query, DefaultSearchLimit, _ => Success(WithData(ListValue([r1, r2])))).result == Success([r1, r2])
    ensures Search(headers, query, DefaultSearchLimit, _ => Success(Bare(NoneValue))).result == Success([])
  {
  }
}
