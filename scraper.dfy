/** `WebScraper` and `ScrapingManager`: the two scraping variants over an abstract web, the fallback
    from the preferred variant to the other, the lazily started browser, and the bounded retry. */
module Scraper {
  import opened Wrappers
  import opened Text
  import opened Sites
  import opened Extraction

  /** The two ways of fetching a page: a plain HTTP GET parsed statically, or a headless browser. */
  datatype Variant = Static | Rendered

  /** One fetch the scraper made. */
  datatype Call = Call(variant: Variant, url: string)

  /** The web as the scraper sees it: what the `n`-th fetch of the session, made with a given variant
      for a given URL, brings back. Indexing by `n` lets a retried fetch see a different answer. */
  type Web = (Variant, string, nat) -> Fetched

  /** What each variant extracts: the snapshot, or nothing, that variant `v` yields for URL `u` on the
      `n`-th fetch of the session. */
  type Outcomes = (Variant, string, nat) -> Option<Snapshot>

  /** The outcome the scraper's code produces: the variant's extraction on the page the web returned
      (the static walks give up on an exception, the rendered ones pass over it). */
  function Attempt(web: Web, v: Variant, u: string, n: nat): Option<Snapshot>
  {
    VariantResult(web(v, u, n), u, v == Rendered)
  }

  /** The state of a lazily created Playwright object: never created, live, or closed by cleanup. */
  datatype Handle = Unset | Open | Released

  /** The browser handle after the fetches `made`, from `b`: the first rendered fetch starts the
      browser when it was never created; a live or released browser stays as it is. */
  function Opened(b: Handle, made: seq<Call>): (h: Handle)
    decreases |made|
    ensures h == Released <==> b == Released
    ensures b != Unset ==> h == b
  {
    if made == [] then b
    else Opened(if b == Unset && made[0].variant == Rendered then Open else b, made[1..])
  }

  /** Starting the browser over two runs of fetches is starting it over the whole. */
  lemma {:induction false} OpenedAppend(b: Handle, m1: seq<Call>, m2: seq<Call>)
    decreases |m1|
    ensures Opened(Opened(b, m1), m2) == Opened(b, m1 + m2)
  {
    if m1 == [] {
      assert m1 + m2 == m2;
    } else {
      assert (m1 + m2)[1..] == m1[1..] + m2;
      OpenedAppend(if b == Unset && m1[0].variant == Rendered then Open else b, m1[1..], m2);
    }
  }

  /** `url.startswith(('http://', 'https://'))`. */
  predicate HasWebScheme(url: string)
  {
    StartsWith(url, "http://") || StartsWith(url, "https://")
  }

  /** The URLs `scrape_product` lets through to a variant. */
  predicate Accepted(url: string)
  {
    HasWebScheme(url) && DetectSite(url).Ok?
  }

  function Other(v: Variant): (w: Variant)
    ensures w != v
  {
    if v == Static then Rendered else Static
  }

  /** The fetch a variant makes: one, except the rendered variant once the browser is closed. */
  function VariantCalls(v: Variant, url: string, browserUp: bool): (made: seq<Call>)
    ensures |made| <= 1 && (forall i :: 0 <= i < |made| ==> made[i] == Call(v, url))
    ensures |made| == 0 <==> v.Rendered? && !browserUp
  {
    if v == Static || browserUp then [Call(v, url)] else []
  }

  /** What variant `v` returns on the `n`-th fetch: with the browser closed the rendered variant gives
      nothing. */
  function Try(tries: Outcomes, v: Variant, url: string, n: nat, browserUp: bool): (r: Option<Snapshot>)
    ensures v == Rendered && !browserUp ==> r.None?
    ensures (v == Static || browserUp) ==> r == tries(v, url, n)
  {
    if v == Rendered && !browserUp then None else tries(v, url, n)
  }

  /** The fallback rule of `scrape_product`, given what the preferred variant `v` returned (`first`)
      and what the other one would return (`second`): the preferred variant's result when it found the
      product, otherwise the other one's; each variant fetches at most once, the preferred one first,
      and the other one only after the preferred one failed. */
  function Fallback(v: Variant, url: string, browserUp: bool, first: Option<Snapshot>, second: Option<Snapshot>)
    : (out: (Option<Snapshot>, seq<Call>))
    ensures first.Some? ==> out.0 == first && out.1 == VariantCalls(v, url, browserUp)
    ensures first.None? ==> out.0 == second
    ensures |out.1| <= 2
    ensures forall i, j :: 0 <= i < j < |out.1| ==> out.1[i].variant != out.1[j].variant
    ensures forall i :: 0 <= i < |out.1| ==> out.1[i].url == url
    ensures browserUp ==> |out.1| >= 1 && out.1[0] == Call(v, url)
    ensures browserUp && first.None? ==> out.1 == [Call(v, url), Call(Other(v), url)]
  {
    if first.Some? then (first, VariantCalls(v, url, browserUp))
    else (second, VariantCalls(v, url, browserUp) + VariantCalls(Other(v), url, browserUp))
  }

  /** What one `scrape_product` call on an accepted URL yields, for a URL, a preference for the
      browser, the fetch number it starts at and whether the browser is usable: the snapshot or
      nothing, and the fetches made. */
  datatype Attempts = Table(runs: imap<(string, bool, nat, bool), (Option<Snapshot>, seq<Call>)>)

  /** `scrape_product` past its URL checks, starting at fetch number `n`: the fallback rule applied
      to the preferred variant's try and, numbered after it, the other variant's. */
  function ProductRun(tries: Outcomes, url: string, usePlaywright: bool, n: nat, browserUp: bool): (Option<Snapshot>, seq<Call>)
  {
    var v := if usePlaywright then Rendered else Static;
    Fallback(v, url, browserUp, Try(tries, v, url, n, browserUp),
             Try(tries, Other(v), url, n + |VariantCalls(v, url, browserUp)|, browserUp))
  }

  /** The method `test_scraping` recommends. */
  datatype Method = Requests | Playwright | NoMethod

  function MethodName(m: Method): (s: string)
    ensures s in {"requests", "playwright", "none"}
  {
    match m
    case Requests => "requests"
    case Playwright => "playwright"
    case NoMethod => "none"
  }

  /** The recommendation: requests whenever it worked (it is the faster one), else playwright when that
      worked, else none. */
  function Recommend(requestsResult: Option<Snapshot>, playwrightResult: Option<Snapshot>): (m: Method)
    ensures m == Requests <==> requestsResult.Some?
    ensures m == Playwright <==> requestsResult.None? && playwrightResult.Some?
    ensures m == NoMethod <==> requestsResult.None? && playwrightResult.None?
  {
    if requestsResult.Some? && playwrightResult.Some? then Requests
    else if requestsResult.Some? then Requests
    else if playwrightResult.Some? then Playwright
    else NoMethod
  }

  /** The dictionary `test_scraping` returns. */
  datatype TestReport = TestReport(url: string, requestsMethod: Option<Snapshot>,
                                   playwrightMethod: Option<Snapshot>, recommended: Method)

  class WebScraper {
    const web: Web
    /** What each variant yields on each fetch; Valid ties it to the extraction code. */
    ghost const tries: Outcomes
    /** Which URLs `scrape_product` passes on to a variant; Valid ties it to Accepted. */
    ghost const accepts: iset<string>
    /** What each `scrape_product` call on an accepted URL yields; Valid ties it to ProductRun. */
    ghost const product: Attempts
    /** Every fetch made so far, in order. */
    var calls: seq<Call>
    var playwright: Handle
    var browser: Handle

    /** Every outcome is the one the variant's code extracts from the page the web returns, and the
        URL filter and the `scrape_product` run are the functions below. These are constants. */
    ghost predicate Tied()
    {
      && (forall v: Variant, u: string, n: nat {:trigger Attempt(web, v, u, n)} :: tries(v, u, n) == Attempt(web, v, u, n))
      && (forall u {:trigger Accepted(u)} :: u in accepts <==> Accepted(u))
      && (forall u: string, p: bool, n: nat, b: bool {:trigger ProductRun(tries, u, p, n, b)} ::
            (u, p, n, b) in product.runs && product.runs[(u, p, n, b)] == ProductRun(tries, u, p, n, b))
    }

    /** The Playwright driver and its browser are created together and released together. */
    ghost predicate Valid()
      reads this
    {
      playwright == browser && Tied()
    }

    constructor(web: Web)
      ensures Valid()
      ensures this.web == web && calls == [] && playwright == Unset && browser == Unset
    {
      this.web := web;
      var t := (v: Variant, u: string, n: nat) => Attempt(web, v, u, n);
      tries := t;
      ghost var runs := imap k: (string, bool, nat, bool) :: ProductRun(t, k.0, k.1, k.2, k.3);
      forall u: string, p: bool, n: nat, b: bool
        ensures (u, p, n, b) in runs && runs[(u, p, n, b)] == ProductRun(t, u, p, n, b) {
        var k := (u, p, n, b);
        assert k.0 == u && k.1 == p && k.2 == n && k.3 == b;
      }
      product := Table(runs);
      ghost var acc := iset u: string | Accepted(u);
      accepts := acc;
      calls := [];
      playwright := Unset;
      browser := Unset;
    }

    /** `scrape_with_requests`: one GET, then the static walks; any exception gives nothing. */
    method ScrapeWithRequests(url: string) returns (r: Option<Snapshot>)
      requires Valid()
      modifies this
      ensures Valid()
      ensures calls == old(calls) + [Call(Static, url)]
      ensures playwright == old(playwright) && browser == old(browser)
      ensures r == tries(Static, url, |old(calls)|)
    {
      var fetched := web(Static, url, |calls|);
      assert tries(Static, url, |calls|) == Attempt(web, Static, url, |calls|);
      calls := calls + [Call(Static, url)];
      r := RunVariant(fetched, url, false);
    }

    /** `scrape_with_playwright`: the browser is started on first use; a page is opened and loaded,
        then the exception-tolerant walks run. Once cleanup has closed the browser, opening a page
        fails and the variant gives nothing without fetching. */
    method ScrapeWithPlaywright(url: string) returns (r: Option<Snapshot>)
      requires Valid()
      modifies this
      ensures Valid()
      ensures browser == (if old(browser) == Unset then Open else old(browser))
      ensures calls == old(calls) + VariantCalls(Rendered, url, old(browser) != Released)
      ensures r == Try(tries, Rendered, url, |old(calls)|, old(browser) != Released)
    {
      if playwright == Unset {
        playwright := Open;
        browser := Open;
      }
      if browser != Open {
        return None;
      }
      var fetched := web(Rendered, url, |calls|);
      assert tries(Rendered, url, |calls|) == Attempt(web, Rendered, url, |calls|);
      calls := calls + [Call(Rendered, url)];
      r := RunVariant(fetched, url, true);
    }

    /** `cleanup`: closes the browser and stops the driver when they were created; they are not reset,
        so a later rendered scrape cannot restart them. */
    method Cleanup()
      requires Valid()
      modifies this
      ensures Valid()
      ensures browser == (if old(browser) == Unset then Unset else Released)
      ensures calls == old(calls)
    {
      if browser != Unset {
        browser := Released;
      }
      if playwright != Unset {
        playwright := Released;
      }
    }

    /** `scrape_product` with requests preferred: the static variant, then the rendered one only when
        the static one gave nothing. */
    method StaticThenRendered(url: string) returns (r: Option<Snapshot>)
      requires Valid()
      modifies this
      ensures Valid()
      ensures r == ProductRun(tries, url, false, |old(calls)|, old(browser) != Released).0
      ensures calls == old(calls) + ProductRun(tries, url, false, |old(calls)|, old(browser) != Released).1
      ensures browser == Opened(old(browser), ProductRun(tries, url, false, |old(calls)|, old(browser) != Released).1)
    {
      r := ScrapeWithRequests(url);
      if r.None? {
        r := ScrapeWithPlaywright(url);
      }
    }

    /** `scrape_product` with playwright preferred: the rendered variant, then the static one only when
        the rendered one gave nothing. */
    method RenderedThenStatic(url: string) returns (r: Option<Snapshot>)
      requires Valid()
      modifies this
      ensures Valid()
      ensures r == ProductRun(tries, url, true, |old(calls)|, old(browser) != Released).0
      ensures calls == old(calls) + ProductRun(tries, url, true, |old(calls)|, old(browser) != Released).1
      ensures browser == Opened(old(browser), ProductRun(tries, url, true, |old(calls)|, old(browser) != Released).1)
    {
      r := ScrapeWithPlaywright(url);
      if r.None? {
        r := ScrapeWithRequests(url);
      }
    }

    /** `scrape_product`: a URL without an http(s) scheme or of an unsupported shop gives nothing and
        fetches nothing; otherwise the preferred variant runs, and only when it gives nothing does the
        other variant run, once (ProductRun, which `product` is by Valid). */
    method ScrapeProduct(url: string, usePlaywright: bool) returns (r: Option<Snapshot>)
      requires Valid()
      modifies this
      ensures Valid()
      ensures r == ScrapeOnce(this, url, usePlaywright, |old(calls)|, old(browser) != Released).0
      ensures calls == old(calls) + ScrapeOnce(this, url, usePlaywright, |old(calls)|, old(browser) != Released).1
      ensures browser == Opened(old(browser), ScrapeOnce(this, url, usePlaywright, |old(calls)|, old(browser) != Released).1)
    {
      assert url in accepts <==> Accepted(url);
      ghost var run := ProductRun(tries, url, usePlaywright, |calls|, browser != Released);
      assert product.runs[(url, usePlaywright, |calls|, browser != Released)] == run;
      if !HasWebScheme(url) {
        return None;
      }
      var site := DetectSite(url);
      if site.Err? {
        return None;
      }
      if usePlaywright {
        r := RenderedThenStatic(url);
      } else {
        r := StaticThenRendered(url);
      }
    }

    /** `test_scraping`: both variants, requests first, and the recommendation drawn from them. */
    method TestScraping(url: string) returns (report: TestReport)
      requires Valid()
      modifies this
      ensures Valid()
      ensures report.url == url
      ensures report.requestsMethod == tries(Static, url, |old(calls)|)
      ensures report.playwrightMethod == Try(tries, Rendered, url, |old(calls)| + 1, old(browser) != Released)
      ensures report.recommended == Recommend(report.requestsMethod, report.playwrightMethod)
      ensures calls == old(calls) + [Call(Static, url)] + VariantCalls(Rendered, url, old(browser) != Released)
      ensures browser == (if old(browser) == Unset then Open else old(browser))
    {
      var viaRequests := ScrapeWithRequests(url);
      var viaPlaywright := ScrapeWithPlaywright(url);
      report := TestReport(url, viaRequests, viaPlaywright, Recommend(viaRequests, viaPlaywright));
    }
  }

  /** One `scrape_product` call from fetch number `n`: a URL it refuses gives nothing without a fetch,
      any other is the run the scraper's table `product` records (ProductRun, by Tied). */
  ghost function ScrapeOnce(s: WebScraper, url: string, usePlaywright: bool, n: nat, browserUp: bool)
    : (Option<Snapshot>, seq<Call>)
  {
    var key := (url, usePlaywright, n, browserUp);
    if url in s.accepts && key in s.product.runs then s.product.runs[key] else (None, [])
  }

  /** `ScrapingManager.max_retries` and `retry_delay` (seconds). */
  const MaxRetries: nat := 3
  const RetryDelay: nat := 5

  /** A run of `scrape_with_retry`: its result, how many attempts ran (every one before the last found
      nothing), and the fetches made. */
  datatype RetryOutcome = RetryOutcome(result: Option<Snapshot>, attempts: nat, made: seq<Call>)

  /** The retry loop after `count` failed attempts that made the fetches `made`, the next one starting
      at fetch number `n`: each attempt is one `scrape_product` call starting at the fetch count the
      previous one left, and the loop stops at the first attempt that finds the product or after
      `MaxRetries` attempts. */
  ghost function RetryLoop(s: WebScraper, url: string, usePlaywright: bool, browserUp: bool,
                     count: nat, made: seq<Call>, n: nat): RetryOutcome
    decreases MaxRetries - count
  {
    if count >= MaxRetries then RetryOutcome(None, count, made)
    else
      var first := ScrapeOnce(s, url, usePlaywright, n, browserUp);
      if first.0.Some? then RetryOutcome(first.0, count + 1, made + first.1)
      else RetryLoop(s, url, usePlaywright, browserUp, count + 1, made + first.1, n + |first.1|)
  }

  /** `scrape_with_retry` from fetch number `n`: the retry loop from no attempts at all. A URL
      `scrape_product` refuses is not short-circuited: every attempt runs and fails without a fetch. */
  ghost function Retried(s: WebScraper, url: string, usePlaywright: bool, n: nat,
                   browserUp: bool): RetryOutcome
  {
    RetryLoop(s, url, usePlaywright, browserUp, 0, [], n)
  }

  /** One `scrape_product` call fetches at most twice, and only the URL it was given. */
  lemma ScrapeOnceShape(s: WebScraper, url: string, usePlaywright: bool, n: nat, browserUp: bool)
    requires s.Tied()
    ensures var once := ScrapeOnce(s, url, usePlaywright, n, browserUp);
      |once.1| <= 2 && forall i :: 0 <= i < |once.1| ==> once.1[i].url == url
  {
    var pr := ProductRun(s.tries, url, usePlaywright, n, browserUp);
  }

  /** The loop only appends: it runs at most `MaxRetries` attempts in all (at least one more when
      any is left), it stops early only on a snapshot, it keeps the fetches already made, and each
      added attempt fetches the URL at most twice. */
  lemma {:induction false} RetryLoopShape(s: WebScraper, url: string, usePlaywright: bool,
                                          browserUp: bool, count: nat, made: seq<Call>, n: nat)
    requires s.Tied() && count <= MaxRetries
    decreases MaxRetries - count
    ensures var o := RetryLoop(s, url, usePlaywright, browserUp, count, made, n);
      && count <= o.attempts <= MaxRetries
      && (count < MaxRetries ==> o.attempts > count)
      && (o.attempts < MaxRetries ==> o.result.Some?)
      && |made| <= |o.made| <= |made| + 2 * (o.attempts - count)
      && o.made[..|made|] == made
      && (forall i :: |made| <= i < |o.made| ==> o.made[i].url == url)
  {
    if count < MaxRetries {
      var first := ScrapeOnce(s, url, usePlaywright, n, browserUp);
      ScrapeOnceShape(s, url, usePlaywright, n, browserUp);
      var next := made + first.1;
      assert next[..|made|] == made;
      if first.0.None? {
        RetryLoopShape(s, url, usePlaywright, browserUp, count + 1, next, n + |first.1|);
        var o := RetryLoop(s, url, usePlaywright, browserUp, count + 1, next, n + |first.1|);
        assert o.made[..|made|] == o.made[..|next|][..|made|];
        forall i | |made| <= i < |o.made|
          ensures o.made[i].url == url
        {
          if i < |next| {
            assert o.made[i] == next[i] == first.1[i - |made|];
          }
        }
      }
    }
  }

  /** A URL `scrape_product` refuses runs out every attempt left, finding nothing and fetching
      nothing. */
  lemma {:induction false} RefusedNeverFetches(s: WebScraper, url: string, usePlaywright: bool,
                                               browserUp: bool, count: nat, made: seq<Call>, n: nat)
    requires url !in s.accepts && count <= MaxRetries
    decreases MaxRetries - count
    ensures RetryLoop(s, url, usePlaywright, browserUp, count, made, n) == RetryOutcome(None, MaxRetries, made)
  {
    if count < MaxRetries {
      assert made + [] == made;
      RefusedNeverFetches(s, url, usePlaywright, browserUp, count + 1, made, n);
    }
  }

  /** With the browser usable and a rendered fetch that always finds the product, the next attempt on
      an accepted URL succeeds whatever the static fetch does: the fallback spares every further retry. */
  lemma RenderedRescues(s: WebScraper, url: string, count: nat, made: seq<Call>, n: nat)
    requires s.Tied()
    requires url in s.accepts && count < MaxRetries
    requires forall m :: s.tries(Rendered, url, m).Some?
    ensures var o := RetryLoop(s, url, false, true, count, made, n);
      o.attempts == count + 1 && o.result.Some? && 1 <= |o.made| - |made| <= 2
  {
    var pr := ProductRun(s.tries, url, false, n, true);
    var first := s.product.runs[(url, false, n, true)];
    if s.tries(Static, url, n).None? {
      assert first.0 == s.tries(Rendered, url, n + 1);
    }
  }

  /** When neither variant ever finds the product on an accepted URL, every attempt left runs, finds
      nothing, and fetches with both variants. */
  lemma {:induction false} RetryExhausts(s: WebScraper, url: string, usePlaywright: bool,
                                         count: nat, made: seq<Call>, n: nat)
    requires s.Tied()
    requires url in s.accepts && count <= MaxRetries
    requires forall v, m :: s.tries(v, url, m).None?
    decreases MaxRetries - count
    ensures var o := RetryLoop(s, url, usePlaywright, true, count, made, n);
      o.result.None? && o.attempts == MaxRetries && |o.made| == |made| + 2 * (MaxRetries - count)
  {
    if count < MaxRetries {
      var v := if usePlaywright then Rendered else Static;
      var pr := ProductRun(s.tries, url, usePlaywright, n, true);
      var first := s.product.runs[(url, usePlaywright, n, true)];
      assert s.tries(v, url, n).None?;
      assert first.1 == [Call(v, url), Call(Other(v), url)];
      RetryExhausts(s, url, usePlaywright, count + 1, made + first.1, n + 2);
    }
  }

  class ScrapingManager {
    const scraper: WebScraper
    /** How many times the manager has slept `RetryDelay` seconds between attempts. */
    ghost var pauses: nat

    constructor(web: Web)
      ensures fresh(scraper) && scraper.Valid()
      ensures scraper.web == web && scraper.calls == [] && scraper.browser == Unset
      ensures pauses == 0
    {
      scraper := new WebScraper(web);
      pauses := 0;
    }

    /** One pass of the retry loop: a `scrape_product` call, which is the next step of RetryLoop. */
    method Attempt(url: string, usePlaywright: bool, ghost up: bool, ghost count: nat, ghost made: seq<Call>)
      returns (r: Option<Snapshot>, ghost step: seq<Call>)
      requires scraper.Valid() && count < MaxRetries
      requires up == (scraper.browser != Released)
      modifies scraper
      ensures scraper.Valid() && up == (scraper.browser != Released)
      ensures scraper.calls == old(scraper.calls) + step
      ensures scraper.browser == Opened(old(scraper.browser), step)
      ensures RetryLoop(scraper, url, usePlaywright, up, count, made, |old(scraper.calls)|) ==
              if r.Some? then RetryOutcome(r, count + 1, made + step)
              else RetryLoop(scraper, url, usePlaywright, up, count + 1, made + step, |scraper.calls|)
    {
      step := ScrapeOnce(scraper, url, usePlaywright, |scraper.calls|, up).1;
      r := scraper.ScrapeProduct(url, usePlaywright);
    }

    /** `scrape_with_retry`: up to three attempts of `scrape_product`, returning the first snapshot;
        a failed attempt other than the last is followed by a pause of five seconds. An unusable URL
        is not short-circuited: all three attempts run, each failing without a fetch. */
    method ScrapeWithRetry(url: string, usePlaywright: bool) returns (r: Option<Snapshot>, ghost attempted: nat)
      requires scraper.Valid()
      modifies this, scraper
      ensures scraper.Valid()
      ensures var o := Retried(scraper, url, usePlaywright, |old(scraper.calls)|,
                               old(scraper.browser) != Released);
        && r == o.result && attempted == o.attempts
        && scraper.calls == old(scraper.calls) + o.made
        && scraper.browser == Opened(old(scraper.browser), o.made)
      ensures 1 <= attempted <= MaxRetries && (r.None? ==> attempted == MaxRetries)
      ensures pauses == old(pauses) + attempted - 1
    {
      ghost var up := scraper.browser != Released;
      ghost var made: seq<Call> := [];
      ghost var total := Retried(scraper, url, usePlaywright, |scraper.calls|, up);
      var attempt := 0;
      r := None;
      while attempt < MaxRetries
        invariant 0 <= attempt <= MaxRetries
        invariant r.None?
        invariant scraper.Valid() && up == (scraper.browser != Released)
        invariant pauses == old(pauses) + (if attempt < MaxRetries then attempt else MaxRetries - 1)
        invariant scraper.calls == old(scraper.calls) + made
        invariant scraper.browser == Opened(old(scraper.browser), made)
        invariant total == RetryLoop(scraper, url, usePlaywright, up,
                                     attempt, made, |scraper.calls|)
      {
        ghost var step;
        r, step := Attempt(url, usePlaywright, up, attempt, made);
        OpenedAppend(old(scraper.browser), made, step);
        made := made + step;
        if r.Some? {
          attempted := attempt + 1;
          return;
        }
        if attempt < MaxRetries - 1 {
          pauses := pauses + 1;
        }
        attempt := attempt + 1;
      }
      attempted := attempt;
    }

    method Cleanup()
      requires scraper.Valid()
      modifies scraper
      ensures scraper.Valid()
      ensures scraper.browser == (if old(scraper.browser) == Unset then Unset else Released)
      ensures scraper.calls == old(scraper.calls)
    {
      scraper.Cleanup();
    }
  }
}
