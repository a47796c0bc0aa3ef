/** The keyword arguments the scrape and crawl tools pass to the outbound
    client, built from the tool's own arguments, and the reading of them back. */
module Options {
  import opened Wrappers

  /** A keyword-argument value: an integer, a flag, a list of format names,
      or the nested page-scrape settings a crawl attaches. */
  datatype OptVal = IntV(i: int) | BoolV(b: bool) | StrListV(strs: seq<string>) | ScrapeOptsV(formats: seq<string>)

  /** Output formats requested when the caller names none: the scrape tool's
      default `formats` argument, and the fixed per-page formats of a crawl. */
  const MarkdownAndHtml: seq<string> := ["markdown", "html"]

  const DefaultSearchLimit: int := 5
  const DefaultCrawlLimit: int := 10

  /** The scrape tool's optional arguments, as the caller supplied them. */
  datatype ScrapeSettings = ScrapeSettings(formats: Option<seq<string>>, onlyMainContent: bool, waitFor: Option<int>, timeout: Option<int>)

  /** The scrape settings of a call that leaves every optional argument out. */
  const DefaultScrapeSettings: ScrapeSettings := ScrapeSettings(Some(MarkdownAndHtml), true, None, None)

  /** The crawl tool's arguments besides the URL. */
  datatype CrawlSettings = CrawlSettings(limit: int, maxDepth: Option<int>)

  const ScrapeKeys: set<string> := {"formats", "onlyMainContent", "waitFor", "timeout"}
  const CrawlKeys: set<string> := {"limit", "maxDepth", "scrapeOptions"}

  /** Adds `key` with the integer when one was supplied; leaves the map
      unchanged when the argument is `None`. */
  function PutIfGiven(opts: map<string, OptVal>, key: string, x: Option<int>): map<string, OptVal>
  {
    if x.Some? then opts[key := IntV(x.value)] else opts
  }

  /** The scrape tool's option map. */
  function ScrapeOptions(s: ScrapeSettings): (opts: map<string, OptVal>)
    ensures opts.Keys <= ScrapeKeys
    ensures "formats" in opts <==> s.formats.Some?
    ensures s.formats.Some? ==> opts["formats"] == StrListV(s.formats.value)
    ensures "onlyMainContent" in opts && opts["onlyMainContent"] == BoolV(s.onlyMainContent)
    ensures "waitFor" in opts <==> s.waitFor.Some?
    ensures s.waitFor.Some? ==> opts["waitFor"] == IntV(s.waitFor.value)
    ensures "timeout" in opts <==> s.timeout.Some?
    ensures s.timeout.Some? ==> opts["timeout"] == IntV(s.timeout.value)
  {
    var withFormats: map<string, OptVal> := if s.formats.Some? then map["formats" := StrListV(s.formats.value)] else map[];
    var withFlag := withFormats["onlyMainContent" := BoolV(s.onlyMainContent)];
    PutIfGiven(PutIfGiven(withFlag, "waitFor", s.waitFor), "timeout", s.timeout)
  }

  /** The crawl tool's option map: the page limit, the depth when given, and
      the fixed page-scrape settings. */
  function CrawlOptions(s: CrawlSettings): (opts: map<string, OptVal>)
    ensures opts.Keys == {"limit", "scrapeOptions"} + (if s.maxDepth.Some? then {"maxDepth"} else {})
    ensures opts["limit"] == IntV(s.limit)
    ensures s.maxDepth.Some? ==> opts["maxDepth"] == IntV(s.maxDepth.value)
    ensures opts["scrapeOptions"] == ScrapeOptsV(MarkdownAndHtml)
  {
    var withLimit := map["limit" := IntV(s.limit)];
    PutIfGiven(withLimit, "maxDepth", s.maxDepth)["scrapeOptions" := ScrapeOptsV(MarkdownAndHtml)]
  }

  /** An optional integer read back from a map: absent, or present as an integer. */
  function ReadInt(opts: map<string, OptVal>, key: string): Option<Option<int>>
  {
    if key !in opts then Some(None)
    else if opts[key].IntV? then Some(Some(opts[key].i))
    else None
  }

  /** How a receiver of the scrape keyword arguments recovers the caller's
      settings; `None` for a map the scrape tool could not have built. */
  function ReadScrapeOptions(opts: map<string, OptVal>): Option<ScrapeSettings>
  {
    if !(opts.Keys <= ScrapeKeys) then None
    else if "formats" in opts && !opts["formats"].StrListV? then None
    else if "onlyMainContent" !in opts || !opts["onlyMainContent"].BoolV? then None
    else
      var formats := if "formats" in opts then Some(opts["formats"].strs) else None;
      match (ReadInt(opts, "waitFor"), ReadInt(opts, "timeout"))
      case (Some(w), Some(t)) => Some(ScrapeSettings(formats, opts["onlyMainContent"].b, w, t))
      case _ => None
  }

  /** How a receiver of the crawl keyword arguments recovers the caller's
      settings; `None` for a map the crawl tool could not have built. */
  function ReadCrawlOptions(opts: map<string, OptVal>): Option<CrawlSettings>
  {
    if !(opts.Keys <= CrawlKeys) then None
    else if "limit" !in opts || !opts["limit"].IntV? then None
    else if "scrapeOptions" !in opts || opts["scrapeOptions"] != ScrapeOptsV(MarkdownAndHtml) then None
    else
      match ReadInt(opts, "maxDepth")
      case Some(d) => Some(CrawlSettings(opts["limit"].i, d))
      case None => None
  }

  /** The scrape option map loses nothing: every setting is read back. */
  lemma ScrapeOptionsRoundTrip(s: ScrapeSettings)
    ensures ReadScrapeOptions(ScrapeOptions(s)) == Some(s)
  {
  }

  /** Every map the reader accepts is the one the scrape tool builds for the
      settings read from it, so building and reading are inverse bijections. */
  lemma ScrapeOptionsOnto(opts: map<string, OptVal>)
    requires ReadScrapeOptions(opts).Some?
    ensures ScrapeOptions(ReadScrapeOptions(opts).value) == opts
  {
  }

  lemma CrawlOptionsRoundTrip(s: CrawlSettings)
    ensures ReadCrawlOptions(CrawlOptions(s)) == Some(s)
  {
  }

  lemma CrawlOptionsOnto(opts: map<string, OptVal>)
    requires ReadCrawlOptions(opts).Some?
    ensures CrawlOptions(ReadCrawlOptions(opts).value) == opts
  {
  }

  /** A scrape with every optional argument left out asks for markdown and
      HTML of the main content only; with `formats=None` the key is dropped. */
  lemma DefaultScrapeOptionMaps()
    ensures ScrapeOptions(DefaultScrapeSettings)
      == map["formats" := StrListV(["markdown", "html"]), "onlyMainContent" := BoolV(true)]
    ensures ScrapeOptions(DefaultScrapeSettings.(formats := None)) == map["onlyMainContent" := BoolV(true)]
  {
  }

  /** A crawl that leaves out the limit and the depth asks for ten pages, at
      the service's own depth, each in markdown and HTML. */
  lemma DefaultCrawlOptionMap()
    ensures CrawlOptions(CrawlSettings(DefaultCrawlLimit, None))
      == map["limit" := IntV(10), "scrapeOptions" := ScrapeOptsV(["markdown", "html"])]
  {
  }
}
