/** The supported shops, their selector profiles, and `WebScraper.detect_site_type`: the host of a
    URL (as Python's `urllib.parse` splits it) decides which shop a product page belongs to. */
module Sites {
  import opened Wrappers
  import opened Text

  datatype Site = Amazon | Flipkart

  /** The key of `SUPPORTED_SITES`, and the `site_type` a snapshot carries. */
  function Name(s: Site): (n: string)
    ensures n == "amazon" <==> s == Amazon
    ensures n == "flipkart" <==> s == Flipkart
  {
    match s
    case Amazon => "amazon"
    case Flipkart => "flipkart"
  }

  /** One entry of `SUPPORTED_SITES`: CSS selectors for the price and the title, tried in order. */
  datatype SiteProfile = SiteProfile(domain: string, priceSelectors: seq<string>, titleSelectors: seq<string>)

  /** The constant profile table, transcribed in its order. */
  function Profile(s: Site): (p: SiteProfile)
    ensures p.domain == Name(s)
    ensures |p.priceSelectors| >= 3 && |p.titleSelectors| == 3
  {
    match s
    case Amazon =>
      SiteProfile("amazon",
        ["span.a-price-whole", "span.a-offscreen", "span.a-price span.a-offscreen", ".a-price .a-offscreen"],
        ["span#productTitle", "h1#title", "#productTitle"])
    case Flipkart =>
      SiteProfile("flipkart",
        ["div._30jeq3._16Jk6d", "div._1_WHN1", "span._16Jk6d"],
        ["span.B_NuCI", "h1._10Ermw", "h1[class*=\"title\"]"])
  }

  // ---------------------------------------------------------------------------------------------
  // The URL host, as `urlparse(url).netloc` computes it.

  /** Characters `urlsplit` strips from the front of a URL: the C0 controls and space. */
  predicate IsC0OrSpace(c: char) { c <= ' ' }

  /** Characters `urlsplit` deletes wherever they occur: tab, line feed, carriage return. */
  predicate IsUnsafeUrlChar(c: char) { c == '\t' || c == '\n' || c == '\r' }

  predicate IsAsciiLetter(c: char) { 'a' <= c <= 'z' || 'A' <= c <= 'Z' }

  /** Characters allowed in a URL scheme. */
  predicate IsSchemeChar(c: char) { IsAsciiLetter(c) || IsDigit(c) || c == '+' || c == '-' || c == '.' }

  /** Characters that end the network location. */
  predicate IsNetlocEnd(c: char) { c == '/' || c == '?' || c == '#' }

  /** Leading C0 controls and spaces removed. */
  function StripC0Left(u: string): (r: string)
    ensures |r| <= |u| && r == u[|u| - |r|..]
    ensures forall i :: 0 <= i < |u| - |r| ==> IsC0OrSpace(u[i])
    ensures r != [] ==> !IsC0OrSpace(r[0])
  {
    if u != [] && IsC0OrSpace(u[0]) then StripC0Left(u[1..]) else u
  }

  /** Every tab, line feed and carriage return removed, the rest kept in order. */
  function RemoveUnsafe(u: string): (r: string)
    ensures |r| <= |u|
    ensures forall i :: 0 <= i < |r| ==> !IsUnsafeUrlChar(r[i])
  {
    if u == [] then [] else (if IsUnsafeUrlChar(u[0]) then [] else [u[0]]) + RemoveUnsafe(u[1..])
  }

  /** Index of the first '/', '?' or '#', or |u| when there is none. */
  function NetlocLength(u: string): (k: nat)
    ensures k <= |u|
    ensures k < |u| ==> IsNetlocEnd(u[k])
    ensures forall i :: 0 <= i < k ==> !IsNetlocEnd(u[i])
  {
    if u == [] || IsNetlocEnd(u[0]) then 0 else 1 + NetlocLength(u[1..])
  }

  /** Whether `u` opens with a scheme: text before the first ':' that is not empty, starts with an
      ASCII letter and holds only scheme characters. */
  predicate HasScheme(u: string)
  {
    var k := FirstIndexOf(u, ':');
    0 < k < |u| && IsAsciiLetter(u[0]) && forall i :: 0 <= i < k ==> IsSchemeChar(u[i])
  }

  /** What follows the scheme and its ':'; the whole text when there is no scheme. */
  function AfterScheme(u: string): (r: string)
    ensures |r| <= |u| && r == u[|u| - |r|..]
  {
    if HasScheme(u) then u[FirstIndexOf(u, ':') + 1..] else u
  }

  /** `urlsplit(u).netloc`: after sanitising and dropping the scheme, the text between a leading "//"
      and the first '/', '?' or '#'; empty when there is no "//". */
  function Netloc(u: string): (n: string)
    ensures forall i :: 0 <= i < |n| ==> !IsNetlocEnd(n[i]) && !IsUnsafeUrlChar(n[i])
  {
    var clean := RemoveUnsafe(StripC0Left(u));
    var rest := AfterScheme(clean);
    if StartsWith(rest, "//") then
      var tail := rest[2..];
      var n := tail[..NetlocLength(tail)];
      assert forall i :: 0 <= i < |n| ==> n[i] == clean[|clean| - |rest| + 2 + i];
      n
    else ""
  }

  /** `urlparse(u).netloc.lower()`, or the ValueError `urlsplit` raises for an unbalanced IPv6 bracket. */
  function Host(u: string): (r: Result<string, string>)
    ensures r.Err? <==> (('[' in Netloc(u)) != (']' in Netloc(u)))
    ensures r.Ok? ==> r.value == AsciiLower(Netloc(u))
  {
    var n := Netloc(u);
    if ('[' in n) != (']' in n) then Err("Invalid IPv6 URL") else Ok(AsciiLower(n))
  }

  /** `detect_site_type`: classify the URL by its lowercased host. */
  function DetectSite(url: string): Result<Site, string>
  {
    match Host(url)
    case Err(e) => Err(e)
    case Ok(h) =>
      if Contains(h, "amazon") || Contains(h, "amzn") then Ok(Amazon)
      else if Contains(h, "flipkart") then Ok(Flipkart)
      else Err("Unsupported site: " + h)
  }

  /** Amazon when the host contains "amazon" or "amzn" (checked first), else Flipkart when it contains
      "flipkart", else an "Unsupported site" error; a URL whose host cannot be split is an error too.
      Only the host counts. */
  lemma DetectSiteClassifies(url: string)
    ensures Host(url).Err? ==> DetectSite(url).Err?
    ensures Host(url).Ok? ==>
      var h := Host(url).value;
      var r := DetectSite(url);
      (r == Ok(Amazon) <==> Occurs(h, "amazon") || Occurs(h, "amzn"))
      && (r == Ok(Flipkart) <==> !Occurs(h, "amazon") && !Occurs(h, "amzn") && Occurs(h, "flipkart"))
      && (r.Err? <==> !Occurs(h, "amazon") && !Occurs(h, "amzn") && !Occurs(h, "flipkart"))
      && (r.Err? ==> r.error == "Unsupported site: " + h)
  {
    if Host(url).Ok? {
      var h := Host(url).value;
      ContainsIffOccurs(h, "amazon");
      ContainsIffOccurs(h, "amzn");
      ContainsIffOccurs(h, "flipkart");
    }
  }

  // ---------------------------------------------------------------------------------------------
  // Lemmas.

  lemma {:induction false} RemoveUnsafeNoop(u: string)
    requires forall i :: 0 <= i < |u| ==> !IsUnsafeUrlChar(u[i])
    ensures RemoveUnsafe(u) == u
  {
    if u != [] {
      RemoveUnsafeNoop(u[1..]);
    }
  }

  /** The first ':' of `u` is at `k`. */
  lemma FirstColonAt(u: string, k: nat)
    requires k < |u| && u[k] == ':'
    requires forall i :: 0 <= i < k ==> u[i] != ':'
    ensures FirstIndexOf(u, ':') == k
  {
  }

  /** NetlocLength is the first position that ends the netloc. */
  lemma NetlocLengthAt(u: string, k: nat)
    requires k <= |u|
    requires k < |u| ==> IsNetlocEnd(u[k])
    requires forall i :: 0 <= i < k ==> !IsNetlocEnd(u[i])
    ensures NetlocLength(u) == k
  {
  }

  /** An http(s) address is not touched by sanitising when it holds no tab or line break. */
  lemma SanitizeWebUrl(u: string)
    requires u != [] && u[0] == 'h'
    requires forall i :: 0 <= i < |u| ==> !IsUnsafeUrlChar(u[i])
    ensures RemoveUnsafe(StripC0Left(u)) == u
  {
    assert StripC0Left(u) == u;
    RemoveUnsafeNoop(u);
  }

  /** An http(s) scheme is recognised and dropped with its ':'. */
  lemma AfterWebScheme(scheme: string, rest: string)
    requires scheme == "http" || scheme == "https"
    ensures AfterScheme(scheme + ":" + rest) == rest
  {
    var u := scheme + ":" + rest;
    assert forall i :: 0 <= i < |scheme| ==> u[i] == scheme[i] && IsSchemeChar(u[i]) && u[i] != ':';
    FirstColonAt(u, |scheme|);
    assert IsAsciiLetter(u[0]);
    assert HasScheme(u);
    assert u[|scheme| + 1..] == rest;
  }

  /** After "//", the netloc runs to the first '/', '?' or '#'. */
  lemma NetlocAfterSlashes(host: string, rest: string)
    requires forall i :: 0 <= i < |host| ==> !IsNetlocEnd(host[i])
    requires rest == [] || IsNetlocEnd(rest[0])
    ensures var t := host + rest; t[..NetlocLength(t)] == host
  {
    var t := host + rest;
    assert forall i :: 0 <= i < |host| ==> t[i] == host[i];
    NetlocLengthAt(t, |host|);
    assert t[..|host|] == host;
  }

  /** A netloc after a scheme: once the text is sanitised and its scheme gone, a leading "//" opens
      the netloc, which runs up to the first '/', '?' or '#'. */
  lemma NetlocAfterScheme(u: string, tail: string)
    requires AfterScheme(RemoveUnsafe(StripC0Left(u))) == "//" + tail
    ensures Netloc(u) == tail[..NetlocLength(tail)]
  {
    var after := "//" + tail;
    assert after[..2] == "//";
    assert after[2..] == tail;
  }

  /** A web address built from parts free of tabs and line breaks holds none. */
  lemma WebUrlIsClean(scheme: string, host: string, rest: string)
    requires forall i :: 0 <= i < |host| ==> !IsUnsafeUrlChar(host[i])
    requires forall i :: 0 <= i < |rest| ==> !IsUnsafeUrlChar(rest[i])
    requires scheme == "http" || scheme == "https"
    ensures var u := scheme + "://" + host + rest; forall i :: 0 <= i < |u| ==> !IsUnsafeUrlChar(u[i])
  {
    var u := scheme + "://" + host + rest;
    forall i | 0 <= i < |u| ensures !IsUnsafeUrlChar(u[i]) {
      if i >= |scheme| + 3 + |host| {
        assert u[i] == rest[i - |scheme| - 3 - |host|];
      } else if i >= |scheme| + 3 {
        assert u[i] == host[i - |scheme| - 3];
      }
    }
  }

  /** The host of an ordinary web address is the text between "://" and the path, query or fragment:
      for `scheme://host rest`, with an http(s) scheme, a host free of '/', '?', '#', and a rest that
      is empty or starts the path, query or fragment, the netloc is `host`. */
  lemma NetlocOfWebUrl(scheme: string, host: string, rest: string)
    requires scheme == "http" || scheme == "https"
    requires forall i :: 0 <= i < |host| ==> !IsNetlocEnd(host[i]) && !IsUnsafeUrlChar(host[i])
    requires forall i :: 0 <= i < |rest| ==> !IsUnsafeUrlChar(rest[i])
    requires rest == [] || IsNetlocEnd(rest[0])
    ensures Netloc(scheme + "://" + host + rest) == host
  {
    var tail := host + rest;
    var after := "//" + tail;
    var u := scheme + ":" + after;
    assert scheme + "://" + host + rest == u;
    WebUrlIsClean(scheme, host, rest);
    assert u[0] == scheme[0] == 'h';
    SanitizeWebUrl(u);
    AfterWebScheme(scheme, after);
    NetlocAfterScheme(u, tail);
    NetlocAfterSlashes(host, rest);
  }

  /** Lowercasing a host that has no capitals leaves it as it is. */
  lemma AsciiLowerNoCapitals(s: string)
    requires forall i :: 0 <= i < |s| ==> !('A' <= s[i] <= 'Z')
    ensures AsciiLower(s) == s
  {
    assert forall i :: 0 <= i < |s| ==> AsciiLower(s)[i] == s[i];
  }

  /** A word with a letter that is absent from a text does not occur in it. */
  lemma AbsentLetter(s: string, t: string, j: nat)
    requires j < |t| && forall i :: 0 <= i < |s| ==> s[i] != t[j]
    ensures !Occurs(s, t)
  {
    forall i ensures !OccursAt(s, t, i) {
      if 0 <= i <= |s| - |t| {
        assert s[i..i + |t|][j] == s[i + j];
      }
    }
  }

  /** The host of an https address on a host written without capitals is that host. */
  lemma HostOfHttpsUrl(host: string, path: string)
    requires forall i :: 0 <= i < |host| ==> !IsNetlocEnd(host[i]) && !IsUnsafeUrlChar(host[i]) && !('A' <= host[i] <= 'Z')
    requires forall i :: 0 <= i < |host| ==> host[i] != '[' && host[i] != ']'
    requires path == [] || IsNetlocEnd(path[0])
    requires forall i :: 0 <= i < |path| ==> !IsUnsafeUrlChar(path[i])
    ensures Host("https://" + host + path) == Ok(host)
  {
    assert "https" + "://" == "https://";
    NetlocOfWebUrl("https", host, path);
    AsciiLowerNoCapitals(host);
  }

  /** Classifying by a known host: the three outcomes, each from the facts about the host alone. */
  lemma DetectByHost(url: string, h: string)
    requires Host(url) == Ok(h)
    ensures Occurs(h, "amazon") || Occurs(h, "amzn") ==> DetectSite(url) == Ok(Amazon)
    ensures !Occurs(h, "amazon") && !Occurs(h, "amzn") && Occurs(h, "flipkart") ==> DetectSite(url) == Ok(Flipkart)
    ensures !Occurs(h, "amazon") && !Occurs(h, "amzn") && !Occurs(h, "flipkart") ==> DetectSite(url) == Err("Unsupported site: " + h)
  {
    DetectSiteClassifies(url);
  }

  lemma AmazonHostWords()
    ensures Occurs("amazon.in", "amazon")
  {
    assert OccursAt("amazon.in", "amazon", 0);
  }

  lemma FlipkartHostWords()
    ensures !Occurs("flipkart.com", "amazon") && !Occurs("flipkart.com", "amzn")
    ensures Occurs("flipkart.com", "flipkart")
  {
    AbsentLetter("flipkart.com", "amazon", 3);
    AbsentLetter("flipkart.com", "amzn", 2);
    assert OccursAt("flipkart.com", "flipkart", 0);
  }

  lemma UnsupportedHostWords()
    ensures !Occurs("unsupported-site.com", "amazon") && !Occurs("unsupported-site.com", "amzn")
    ensures !Occurs("unsupported-site.com", "flipkart")
  {
    AbsentLetter("unsupported-site.com", "amazon", 0);
    AbsentLetter("unsupported-site.com", "amzn", 0);
    AbsentLetter("unsupported-site.com", "flipkart", 0);
  }

  /** Any address on amazon.in, whatever its path, belongs to Amazon. */
  lemma ExampleAmazon(path: string)
    requires path == [] || IsNetlocEnd(path[0])
    requires forall i :: 0 <= i < |path| ==> !IsUnsafeUrlChar(path[i])
    ensures DetectSite("https://amazon.in" + path) == Ok(Amazon)
  {
    assert "https://" + "amazon.in" == "https://amazon.in";
    HostOfHttpsUrl("amazon.in", path);
    AmazonHostWords();
    DetectByHost("https://amazon.in" + path, "amazon.in");
  }

  /** Any address on flipkart.com belongs to Flipkart. */
  lemma ExampleFlipkart(path: string)
    requires path == [] || IsNetlocEnd(path[0])
    requires forall i :: 0 <= i < |path| ==> !IsUnsafeUrlChar(path[i])
    ensures DetectSite("https://flipkart.com" + path) == Ok(Flipkart)
  {
    assert "https://" + "flipkart.com" == "https://flipkart.com";
    HostOfHttpsUrl("flipkart.com", path);
    FlipkartHostWords();
    DetectByHost("https://flipkart.com" + path, "flipkart.com");
  }

  /** Any address on unsupported-site.com is refused. */
  lemma ExampleUnsupported(path: string)
    requires path == [] || IsNetlocEnd(path[0])
    requires forall i :: 0 <= i < |path| ==> !IsUnsafeUrlChar(path[i])
    ensures DetectSite("https://unsupported-site.com" + path).Err?
  {
    assert "https://" + "unsupported-site.com" == "https://unsupported-site.com";
    HostOfHttpsUrl("unsupported-site.com", path);
    UnsupportedHostWords();
    DetectByHost("https://unsupported-site.com" + path, "unsupported-site.com");
  }
}
