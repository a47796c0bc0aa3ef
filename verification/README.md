# Firecrawl MCP adapter: a Dafny model

This project models the adapter logic of a small server. The server exposes three operations of the
Firecrawl web-scraping service as MCP tools: `firecrawl_search`, `firecrawl_scrape` and `firecrawl_crawl`.
Each tool:

1. takes the caller's Firecrawl API key from the request's `Authorization: Bearer fc-…` header;
2. builds the outbound call's arguments from the tool's own arguments;
3. makes one outbound call, authenticated with that key;
4. returns the service's answer, or an error message that names the tool.

The model consists of five modules:

- `Wrappers`: `Option` (Python's `None`) and `Result` (a return value, or the message of a raised exception).
- `Text`: the Python string operations the credential check uses. These are `lower()` (ASCII only),
  `startswith` and `split(" ", 1)`. `split` has a contract that fully characterises it.
- `Auth`: `ExtractToken`, which models `_get_api_key`. The request's headers are passed explicitly, as a map
  keyed by lower-case header names.
- `Options`: the keyword-argument maps passed to the scrape and crawl clients. It also has readers that
  recover the caller's settings from those maps. Round-trip lemmas prove the maps lose nothing.
- `Tools`: the three tools. The outbound client is a function parameter that maps a request to an
  `Outcome` (a response, or an exception message). Each tool returns a `Run`, which holds the outbound
  request it sent, if any, and the caller's result. So "no outbound call was made" is observable as
  `sent == None`.

Errors are modelled as the messages of the exceptions the source raises. The source raises a plain
`Exception` in every case. `Tools.Classify` recovers an error category from a message: credential,
search, scrape, crawl or other. Lemmas prove that this classification is exact for every message the
tools can produce.

## Model

| member | source | states |
|---|---|---|
| Text.Lower | server.py:45 | `lower()` keeps the length, and maps each character through the ASCII-only `LowerChar`; `Text.LowerCharOnto` and `Auth.BearerTestIsCaseInsensitive` show what this means for the bearer test |
| Text.LowerCharOnto | server.py:45 | a lower-case letter comes out of ASCII lower-casing for exactly two characters: itself and its capital |
| Text.SplitOnce | server.py:48 | `split(" ", 1)` gives the whole string when the separator is absent; otherwise it gives the text before and after the separator's first occurrence, and the separator is not in the first part |
| Text.SplitAtFirst | server.py:48 | when `s[k]` is the first occurrence of the separator, the parts are exactly `s[..k]` and `s[k+1..]` |
| Auth.BearerTestIsCaseInsensitive | server.py:45 | lower-casing the header and comparing it with `"bearer "` accepts exactly the values that begin with "bearer" in any letter case, followed by one space |
| Auth.SchemeSplit | server.py:45-48 | once the scheme test has passed, the first space is the one that ends the scheme, so the token is everything after the seventh character |
| Auth.ExtractToken | server.py:28-52 | succeeds iff the `authorization` header (read as `""` when missing) has a bearer scheme and its remainder starts with `fc-`; the token is then exactly that remainder; a bad scheme fails with "Authorization header missing or malformed"; a good scheme with a bad token fails with "Invalid Firecrawl API token format" |
| Auth.TokenRoundTrip | server.py:44-52 | a header built from any spelling of the bearer scheme and any token starting with `fc-` yields that token back, including tokens that contain spaces |
| Auth.BadTokenRejected | server.py:48-51 | a token without the exact, case-sensitive `fc-` prefix is refused with the token-format message, even when the scheme is well formed |
| Auth.MissingHeaderRejected | server.py:44-47 | a missing header behaves like an empty one and is refused as malformed |
| Auth.MixedCaseSchemeAccepted | server.py:45-52 | `bEaReR fc-key 2` is accepted, and the token is `fc-key 2` |
| Auth.UpperCaseTokenPrefixRejected | server.py:49-51 | `Bearer FC-key` is refused because the token-prefix test is case-sensitive |
| Auth.EmptyTokenRejected | server.py:48-51 | `Bearer ` yields the empty token, which is refused with the token-format message |
| Options.ScrapeOptions | server.py:120-127 | `formats` is present iff it was supplied, with the supplied list; `onlyMainContent` is always present with the flag; `waitFor` and `timeout` are present iff supplied, with unchanged values; no other key appears |
| Options.CrawlOptions | server.py:159-162 | the keys are exactly `limit` and `scrapeOptions`, plus `maxDepth` iff a depth was given; `limit` and `maxDepth` keep their values; `scrapeOptions` always requests markdown and HTML |
| Options.ScrapeOptionsRoundTrip | server.py:120-127 | reading the scrape option map back gives the caller's settings |
| Options.ScrapeOptionsOnto | server.py:120-127 | every map that the reader accepts is the one built from the settings read from it |
| Options.CrawlOptionsRoundTrip | server.py:159-162 | reading the crawl option map back gives the caller's limit and depth |
| Options.CrawlOptionsOnto | server.py:159-162 | every map that the crawl reader accepts is the one built from the settings read from it |
| Options.DefaultScrapeOptionMaps | server.py:92-95 | omitting every optional argument requests markdown and HTML of the main content only; `formats=None` drops the `formats` key but keeps `onlyMainContent` |
| Options.DefaultCrawlOptionMap | server.py:138-139 | a crawl that leaves out its optional arguments sends `limit = 10`, no `maxDepth`, and page-scrape settings requesting markdown and HTML |
| Tools.SearchResults | server.py:79 | the result is the response's `data` list when `data` exists, otherwise the bare response list; a `None` in either place gives `[]` |
| Tools.Wrap | server.py:85-87 | a service failure becomes an error whose message is the prefix followed by the original message; a success passes through unchanged |
| Tools.Search | server.py:74-87 | a credential failure is returned unwrapped and no request is sent; otherwise one request carries this call's token, the query and the limit unchanged; on success the normalised results are returned, and on failure "Firecrawl search failed: " is prefixed to the service's message |
| Tools.Scrape | server.py:114-133 | a credential failure is returned unwrapped and no request is sent; otherwise one request carries this call's token, the URL and the scrape option map; the service's record is returned unchanged, and a failure gets the prefix "Firecrawl scrape failed: " |
| Tools.Crawl | server.py:156-168 | a credential failure is returned unwrapped and no request is sent; otherwise one request carries this call's token, the URL and the crawl option map; the service's record is returned unchanged, and a failure gets the prefix "Firecrawl crawl failed: " |
| Tools.WrappedIsNotAuth | server.py:47-51 | a wrapped service failure can never equal either credential-error message, whatever the service's message is |
| Tools.SearchErrorKinds | server.py:74-87 | every search error is classified as a credential error exactly when no request was sent, and as a search error otherwise |
| Tools.ScrapeErrorKinds | server.py:114-133 | every scrape error is classified as a credential error exactly when no request was sent, and as a scrape error otherwise |
| Tools.CrawlErrorKinds | server.py:156-168 | every crawl error is classified as a credential error exactly when no request was sent, and as a crawl error otherwise |
| Tools.AuthFailureMakesNoCall | server.py:74-78 | when the credential is rejected, each tool gives the same run whatever the service would have answered |
| Tools.SearchExamples | server.py:78-84 | a response exposing `data = [r1, r2]` yields exactly `[r1, r2]`, and a `None` response yields `[]` and not an error |

## Notes on the source

- `formats` defaults to `['markdown', 'html']` (server.py:92). So a call that leaves it out still sends that
  list, and only an explicit `None` drops the key (server.py:121-122). In the model, `DefaultScrapeSettings`
  has `formats = Some(["markdown", "html"])`.
- Every failure is a plain `Exception` that carries a message (server.py:47, 51, 87, 133, 168). The model
  keeps the message, and `Classify` recovers the category from it.

## Left out

- The FastMCP server, the SSE transport and its paths, tool registration, and the `__main__` entry point
  with the `PORT` variable. These are framework and network plumbing.
- `get_http_headers()` and its case-insensitive header-name lookup. The model takes an explicit map that is
  already keyed by lower-case names.
- The `FirecrawlApp` client, its HTTP calls and the internals of `ScrapeOptions`. They are an external
  service, modelled as a function parameter from requests to outcomes. Client construction sits outside the
  source's `try` blocks, and any failure it might raise is not modelled.
- All logging, including the preview of the first three search results. It is a side effect with no
  contract.
- `MCP_CLIENT_REQUEST_TIMEOUT`. It is parsed as a float and never used.
- Text.Lower: models Python's `lower()` for ASCII only. For the fixed prefix `"bearer "` this gives the
  same accept/reject decision as full Unicode lower-casing. No non-ASCII character lowercases to one of
  the letters b, e, a or r, or to a space.
- Tools.SearchResults: search responses are limited to `None`, a list, or an object whose `data` attribute
  is `None` or a list. Python truthiness on other objects is not modelled.
- Concurrency, and the abandonment of in-flight outbound calls. Each tool invocation is an independent,
  pure function of its inputs here.
