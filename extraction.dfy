/** The selector walks of `scrape_with_requests` and `scrape_with_playwright`: a loaded page is an
    oracle answering, for each CSS selector, whether an element matched (and its text) or the query
    raised; the walks try the site profile's selectors in order. */
module Extraction {
  import opened Wrappers
  import opened Text
  import opened PriceParser
  import opened Sites

  /** The outcome of looking up one selector on a page and reading the element's text. */
  datatype Query = Missing | Found(text: string) | Raised

  /** A loaded page, seen only through its selector queries. */
  type Page = string -> Query

  /** A walk either reaches its end, with or without a find, or is cut short by an exception. */
  datatype Walk<T> = Aborted | Finished(found: Option<T>)

  /** A selector outcome the title walk passes over: nothing matched, or the query raised and the
      walk is the exception-tolerant (rendered) one. */
  predicate TitleSkips(q: Query, tolerant: bool)
  {
    q.Missing? || (tolerant && q.Raised?)
  }

  /** The price a selector outcome offers: `extract_price_from_text` of the matched element's
      stripped text. */
  function PriceOf(q: Query): (r: Option<real>)
    ensures r.Some? ==> q.Found? && r.value > 0.0
  {
    if q.Found? then ExtractPrice(Strip(q.text)) else None
  }

  /** A selector outcome that ends the price walk with a price. */
  predicate Priced(q: Query)
  {
    PriceOf(q).Some?
  }

  /** A selector outcome the price walk passes over: no price in it, and not an exception that the
      walk has to give up on. */
  predicate PriceSkips(q: Query, tolerant: bool)
  {
    !Priced(q) && (tolerant || !q.Raised?)
  }

  /** The title walk: the stripped text of the first selector that matches, even when that text is
      empty. In the static walk an exception ends the whole scrape; in the rendered one it is skipped. */
  function TitleWalk(page: Page, sels: seq<string>, tolerant: bool): Walk<string>
  {
    if sels == [] then Finished(None)
    else
      match page(sels[0])
      case Missing => TitleWalk(page, sels[1..], tolerant)
      case Raised => if tolerant then TitleWalk(page, sels[1..], tolerant) else Aborted
      case Found(t) => Finished(Some(Strip(t)))
  }

  /** The price walk: the price of the first selector whose stripped text parses to a price; a match
      whose text does not parse does not stop it. Exceptions behave as in the title walk. */
  function PriceWalk(page: Page, sels: seq<string>, tolerant: bool): Walk<real>
  {
    if sels == [] then Finished(None)
    else if Priced(page(sels[0])) then Finished(PriceOf(page(sels[0])))
    else if page(sels[0]).Raised? && !tolerant then Aborted
    else PriceWalk(page, sels[1..], tolerant)
  }

  /** `scrape_with_requests`'s title loop. */
  method FindTitle(page: Page, sels: seq<string>, tolerant: bool) returns (w: Walk<string>)
    ensures w == TitleWalk(page, sels, tolerant)
  {
    var i := 0;
    while i < |sels|
      invariant 0 <= i <= |sels|
      invariant TitleWalk(page, sels, tolerant) == TitleWalk(page, sels[i..], tolerant)
    {
      assert sels[i..][1..] == sels[i + 1..];
      match page(sels[i]) {
        case Found(t) =>
          return Finished(Some(Strip(t)));
        case Raised =>
          if !tolerant {
            return Aborted;
          }
        case Missing =>
      }
      i := i + 1;
    }
    return Finished(None);
  }

  /** `scrape_with_requests`'s price loop. */
  method FindPrice(page: Page, sels: seq<string>, tolerant: bool) returns (w: Walk<real>)
    ensures w == PriceWalk(page, sels, tolerant)
  {
    var i := 0;
    while i < |sels|
      invariant 0 <= i <= |sels|
      invariant PriceWalk(page, sels, tolerant) == PriceWalk(page, sels[i..], tolerant)
    {
      assert sels[i..][1..] == sels[i + 1..];
      match page(sels[i]) {
        case Found(t) =>
          var price := ExtractPrice(Strip(t));
          if price.Some? {
            return Finished(price);
          }
        case Raised =>
          if !tolerant {
            return Aborted;
          }
        case Missing =>
      }
      i := i + 1;
    }
    return Finished(None);
  }

  // ---------------------------------------------------------------------------------------------
  // What the walks find.

  /** The title walk returns the stripped text of selector `k` when `k` matches and every earlier
      selector was passed over. */
  lemma {:induction false} TitleWalkFinds(page: Page, sels: seq<string>, tolerant: bool, k: nat)
    requires k < |sels| && page(sels[k]).Found?
    requires forall j :: 0 <= j < k ==> TitleSkips(page(sels[j]), tolerant)
    ensures TitleWalk(page, sels, tolerant) == Finished(Some(Strip(page(sels[k]).text)))
  {
    if k > 0 {
      assert TitleSkips(page(sels[0]), tolerant);
      forall j | 0 <= j < k - 1 ensures TitleSkips(page(sels[1..][j]), tolerant) {
        assert sels[1..][j] == sels[j + 1];
      }
      TitleWalkFinds(page, sels[1..], tolerant, k - 1);
    }
  }

  /** The title walk finds nothing exactly when it passes over every selector. */
  lemma {:induction false} TitleWalkEmpty(page: Page, sels: seq<string>, tolerant: bool)
    ensures TitleWalk(page, sels, tolerant) == Finished(None)
        <==> forall j :: 0 <= j < |sels| ==> TitleSkips(page(sels[j]), tolerant)
  {
    if sels != [] {
      TitleWalkEmpty(page, sels[1..], tolerant);
      assert forall j :: 0 < j < |sels| ==> sels[j] == sels[1..][j - 1];
    }
  }

  /** Selector `k` raises and every selector before it matched nothing. */
  ghost predicate RaisesFirstAt(page: Page, sels: seq<string>, k: int)
  {
    0 <= k < |sels| && page(sels[k]).Raised? && forall j :: 0 <= j < k ==> page(sels[j]).Missing?
  }

  lemma RaisesFirstAtShift(page: Page, sels: seq<string>, k: nat)
    requires sels != [] && page(sels[0]).Missing?
    ensures RaisesFirstAt(page, sels, k + 1) <==> RaisesFirstAt(page, sels[1..], k)
  {
    assert forall j :: 0 <= j < |sels| - 1 ==> sels[1..][j] == sels[j + 1];
  }

  /** The static title walk is cut short exactly when a query raises before any selector matched. */
  lemma {:induction false} TitleWalkAborts(page: Page, sels: seq<string>, tolerant: bool)
    ensures TitleWalk(page, sels, tolerant) == Aborted
        <==> !tolerant && exists k :: RaisesFirstAt(page, sels, k)
  {
    if sels == [] {
      assert forall k :: !RaisesFirstAt(page, sels, k);
    } else if page(sels[0]).Missing? {
      TitleWalkAborts(page, sels[1..], tolerant);
      if exists k :: RaisesFirstAt(page, sels, k) {
        var k :| RaisesFirstAt(page, sels, k);
        assert k != 0;
        RaisesFirstAtShift(page, sels, k - 1);
      }
      if exists k :: RaisesFirstAt(page, sels[1..], k) {
        var k :| RaisesFirstAt(page, sels[1..], k);
        RaisesFirstAtShift(page, sels, k);
      }
    } else if page(sels[0]).Raised? {
      assert RaisesFirstAt(page, sels, 0);
      TolerantWalksFinish(page, sels[1..]);
    } else {
      assert forall k :: !RaisesFirstAt(page, sels, k) by {
        forall k ensures !RaisesFirstAt(page, sels, k) {
          if 0 < k < |sels| {
            assert !page(sels[0]).Missing?;
          }
        }
      }
    }
  }

  /** The rendered walks never give up. */
  lemma {:induction false} TolerantWalksFinish(page: Page, sels: seq<string>)
    ensures TitleWalk(page, sels, true).Finished?
    ensures PriceWalk(page, sels, true).Finished?
  {
    if sels != [] {
      TolerantWalksFinish(page, sels[1..]);
    }
  }

  /** The price walk returns the price of selector `k` when `k` yields a price and every earlier
      selector was passed over. */
  lemma {:induction false} PriceWalkFinds(page: Page, sels: seq<string>, tolerant: bool, k: nat)
    requires k < |sels| && Priced(page(sels[k]))
    requires forall j :: 0 <= j < k ==> PriceSkips(page(sels[j]), tolerant)
    ensures PriceWalk(page, sels, tolerant) == Finished(PriceOf(page(sels[k])))
  {
    if k > 0 {
      assert PriceSkips(page(sels[0]), tolerant);
      forall j | 0 <= j < k - 1 ensures PriceSkips(page(sels[1..][j]), tolerant) {
        assert sels[1..][j] == sels[j + 1];
      }
      PriceWalkFinds(page, sels[1..], tolerant, k - 1);
    }
  }

  /** The price walk finds nothing exactly when it passes over every selector. */
  lemma {:induction false} PriceWalkEmpty(page: Page, sels: seq<string>, tolerant: bool)
    ensures PriceWalk(page, sels, tolerant) == Finished(None)
        <==> forall j :: 0 <= j < |sels| ==> PriceSkips(page(sels[j]), tolerant)
  {
    if sels != [] {
      PriceWalkEmpty(page, sels[1..], tolerant);
      assert forall j :: 0 < j < |sels| ==> sels[j] == sels[1..][j - 1];
    }
  }

  /** Every price the walk finds is one ExtractPrice produced, so it is strictly positive. */
  lemma {:induction false} PriceWalkPositive(page: Page, sels: seq<string>, tolerant: bool)
    ensures var w := PriceWalk(page, sels, tolerant); w.Finished? && w.found.Some? ==> w.found.value > 0.0
  {
    if sels != [] {
      PriceWalkPositive(page, sels[1..], tolerant);
    }
  }

  // ---------------------------------------------------------------------------------------------
  // One variant's outcome.

  /** What a variant returns: the product dictionary `{product_name, price, url, site_type}`. */
  datatype Snapshot = Snapshot(productName: string, price: real, url: string, site: Site)

  /** The result of fetching a URL: the request or navigation failed, or a page was loaded. */
  datatype Fetched = FetchFailed | Loaded(page: Page)

  /** One variant after its fetch: the site must be supported, neither walk may be cut short, and
      both a non-empty title and a price must be found. The snapshot carries the input URL. */
  function VariantResult(fetched: Fetched, url: string, tolerant: bool): Option<Snapshot>
  {
    match fetched
    case FetchFailed => None
    case Loaded(page) =>
      match DetectSite(url)
      case Err(_) => None
      case Ok(site) =>
        var prof := Profile(site);
        match (TitleWalk(page, prof.titleSelectors, tolerant), PriceWalk(page, prof.priceSelectors, tolerant))
        case (Finished(Some(name)), Finished(Some(price))) =>
          if name == "" then None else Some(Snapshot(name, price, url, site))
        case _ => None
  }

  /** Every snapshot comes from a loaded page of a supported site, carries the input URL and the
      detected site, a non-empty title and a strictly positive price, and these are what the two walks
      found on the site's selector lists. */
  lemma VariantResultSound(fetched: Fetched, url: string, tolerant: bool)
    ensures var r := VariantResult(fetched, url, tolerant);
      r.Some? ==>
        fetched.Loaded? && DetectSite(url).Ok?
        && r.value.url == url && r.value.site == DetectSite(url).value
        && r.value.productName != "" && r.value.price > 0.0
        && TitleWalk(fetched.page, Profile(r.value.site).titleSelectors, tolerant) == Finished(Some(r.value.productName))
        && PriceWalk(fetched.page, Profile(r.value.site).priceSelectors, tolerant) == Finished(Some(r.value.price))
  {
    if fetched.Loaded? && DetectSite(url).Ok? {
      var site := DetectSite(url).value;
      var tw := TitleWalk(fetched.page, Profile(site).titleSelectors, tolerant);
      var pw := PriceWalk(fetched.page, Profile(site).priceSelectors, tolerant);
      PriceWalkPositive(fetched.page, Profile(site).priceSelectors, tolerant);
      assert VariantResult(fetched, url, tolerant)
          == if tw.Finished? && tw.found.Some? && pw.Finished? && pw.found.Some? && tw.found.value != ""
             then Some(Snapshot(tw.found.value, pw.found.value, url, site)) else None;
    }
  }

  /** A variant that loaded a page of a supported site, with a non-empty title and a price on it, does
      return a snapshot: the converse of VariantResult's guarantees. */
  lemma VariantSucceeds(page: Page, url: string, tolerant: bool, name: string, price: real)
    requires DetectSite(url).Ok?
    requires TitleWalk(page, Profile(DetectSite(url).value).titleSelectors, tolerant) == Finished(Some(name))
    requires PriceWalk(page, Profile(DetectSite(url).value).priceSelectors, tolerant) == Finished(Some(price))
    requires name != ""
    ensures VariantResult(Loaded(page), url, tolerant) == Some(Snapshot(name, price, url, DetectSite(url).value))
  {
  }

  /** The body of both variants once the page is fetched: detect the site, walk the title selectors,
      walk the price selectors, and keep the result only when both walks found something usable. */
  method RunVariant(fetched: Fetched, url: string, tolerant: bool) returns (r: Option<Snapshot>)
    ensures r == VariantResult(fetched, url, tolerant)
  {
    if fetched.FetchFailed? {
      return None;
    }
    var site := DetectSite(url);
    if site.Err? {
      return None;
    }
    var prof := Profile(site.value);
    var title := FindTitle(fetched.page, prof.titleSelectors, tolerant);
    if title.Aborted? {
      return None;
    }
    var price := FindPrice(fetched.page, prof.priceSelectors, tolerant);
    if price.Aborted? {
      return None;
    }
    if title.found.None? || title.found.value == "" {
      return None;
    }
    if price.found.None? {
      return None;
    }
    r := Some(Snapshot(title.found.value, price.found.value, url, site.value));
  }
}
