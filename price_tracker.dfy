/** `PriceTracker`: adding a product, checking prices and raising drop notifications, the sweep over
    all active products, sending and marking the pending notifications, and exporting a product's
    price history. */
module Tracker {
  import opened Wrappers
  import opened Text
  import opened Sites
  import opened Extraction
  import opened Scraper
  import opened Database
  import opened Notifier

  /** The drop rule: the new price is at or under the threshold, there was a non-zero stored price
      (Python truthiness), and the new price is strictly below it. */
  predicate DropFires(newPrice: real, threshold: real, oldPrice: Option<real>)
  {
    newPrice <= threshold && oldPrice.Some? && oldPrice.value != 0.0 && newPrice < oldPrice.value
  }

  /** Checking a product again at the price just recorded raises no second notification: the update
      stores that price first, and a price is never strictly below itself. */
  lemma RecheckAtSamePriceIsQuiet(ps: seq<Product>, id: int, price: real, now: int)
    requires ProductById(ps, id).Some?
    ensures var q := ProductById(SetPrice(ps, id, price, now), id);
      q.Some? && q.value.currentPrice == Some(price) && !DropFires(price, q.value.thresholdPrice, q.value.currentPrice)
  {
    StoredPriceIsLatest(ps, id, price, now);
  }

  datatype AddResult =
    | Added(productId: int, productName: string, currentPrice: real, thresholdPrice: real)
    | AddFailed(error: string)

  datatype CheckResult =
    | Checked(productName: string, oldPrice: Option<real>, newPrice: real, thresholdPrice: real,
              priceDropped: bool, notificationCreated: bool)
    | CheckFailed(error: string)

  /** What `check_all_products` reports. */
  datatype SweepResult = SweepResult(productsChecked: nat, priceDrops: nat, errors: seq<string>)

  /** What `process_notifications` reports (an empty round reports no failures). */
  datatype ProcessResult = ProcessResult(notificationsProcessed: nat, emailsSent: nat, failedEmails: nat)

  /** What `get_statistics` reports, without the time of the report. */
  datatype TrackerStats = TrackerStats(database: Statistics, activeProducts: nat, pendingNotifications: nat)

  /** One line of the CSV export, before it is written out as text. */
  datatype CsvLine = HeaderLine(columns: seq<string>) | DataLine(date: int, price: real)

  datatype Export =
    | CsvExport(lines: seq<CsvLine>, filename: string)
    | JsonExport(history: seq<PricePoint>)

  /** The CSV export of a history: the `Date,Price` header, then one line per entry. */
  function CsvLines(h: seq<PricePoint>): (r: seq<CsvLine>)
    ensures |r| == |h| + 1 && r[0] == HeaderLine(["Date", "Price"])
  {
    [HeaderLine(["Date", "Price"])] + DataLines(h)
  }

  /** One data line per history entry, in order. */
  function DataLines(h: seq<PricePoint>): (r: seq<CsvLine>)
    ensures |r| == |h| && forall i :: 0 <= i < |h| ==> r[i] == DataLine(h[i].timestamp, h[i].price)
  {
    seq(|h|, i requires 0 <= i < |h| => DataLine(h[i].timestamp, h[i].price))
  }

  /** Reading a CSV export back: the header must come first and only there. */
  function ReadCsv(lines: seq<CsvLine>): Option<seq<(int, real)>>
  {
    if lines == [] || lines[0] != HeaderLine(["Date", "Price"]) then None
    else ReadRows(lines[1..])
  }

  function ReadRows(lines: seq<CsvLine>): Option<seq<(int, real)>>
  {
    if lines == [] then Some([])
    else match lines[0]
      case HeaderLine(_) => None
      case DataLine(d, p) =>
        match ReadRows(lines[1..])
        case None => None
        case Some(rest) => Some([(d, p)] + rest)
  }

  /** The (timestamp, price) pairs of a history, in order. */
  function Pairs(h: seq<PricePoint>): seq<(int, real)>
  {
    seq(|h|, i requires 0 <= i < |h| => (h[i].timestamp, h[i].price))
  }

  lemma {:induction false} ReadRowsOfData(h: seq<PricePoint>)
    ensures ReadRows(DataLines(h)) == Some(Pairs(h))
  {
    if h != [] {
      var lines := DataLines(h);
      ReadRowsOfData(h[1..]);
      assert lines[0] == DataLine(h[0].timestamp, h[0].price);
      assert lines[1..] == DataLines(h[1..]);
      assert ReadRows(lines) == Some([(h[0].timestamp, h[0].price)] + Pairs(h[1..]));
      assert Pairs(h) == [(h[0].timestamp, h[0].price)] + Pairs(h[1..]);
    } else {
      assert DataLines(h) == [] && Pairs(h) == [];
    }
  }

  /** The CSV export loses nothing: reading it back gives every entry's date and price, in order. */
  lemma CsvRoundTrip(h: seq<PricePoint>)
    ensures ReadCsv(CsvLines(h)) == Some(Pairs(h))
  {
    ReadRowsOfData(h);
    assert CsvLines(h)[1..] == DataLines(h);
  }

  function NotificationIds(r: seq<Pending>): (ids: seq<int>)
    ensures |ids| == |r| && forall i :: 0 <= i < |r| ==> ids[i] == r[i].notification.id
  {
    seq(|r|, i requires 0 <= i < |r| => r[i].notification.id)
  }

  /** Marking the first i + 1 pending rows is marking the first i, then row i. */
  lemma MarkOneMore(ns: seq<Notification>, pending: seq<Pending>, i: nat)
    requires i < |pending|
    ensures MarkAllSent(ns, NotificationIds(pending[..i + 1]))
         == MarkSent(MarkAllSent(ns, NotificationIds(pending[..i])), pending[i].notification.id)
  {
    assert NotificationIds(pending[..i + 1]) == NotificationIds(pending[..i]) + [pending[i].notification.id];
    assert NotificationIds(pending[..i + 1])[..i] == NotificationIds(pending[..i]);
  }

  /** Marking the ids of all pending notifications leaves none pending. */
  lemma PendingAllMarked(ns: seq<Notification>, ps: seq<Product>)
    ensures PendingRows(MarkAllSent(ns, NotificationIds(PendingRows(ns, ps))), ps) == []
  {
    var pending := PendingRows(ns, ps);
    forall x | x in pending ensures x.notification.id in NotificationIds(pending) {
      var k :| 0 <= k < |pending| && pending[k] == x;
      assert NotificationIds(pending)[k] == x.notification.id;
    }
    MarkingAllClearsPending(ns, ps, NotificationIds(pending));
  }

  function ProductIds(ps: seq<Product>): (ids: seq<int>)
    ensures |ids| == |ps| && forall i :: 0 <= i < |ps| ==> ids[i] == ps[i].id
  {
    seq(|ps|, i requires 0 <= i < |ps| => ps[i].id)
  }

  /** What a price check reads and changes: the three tables with their counters, the scraper's
      fetches and browser, and how many retry pauses the scraping manager has taken. */
  datatype World = World(products: seq<Product>, history: seq<PricePoint>, notifications: seq<Notification>,
                         nextHistoryId: int, nextNotificationId: int,
                         calls: seq<Call>, browser: Handle, pauses: int)

  /** A scraped price recorded for `p` (`update_product_price`): the row's price and last check are
      set and one history row is appended; when the drop rule fires against the stored price, one
      unsent notification is appended as well (`add_notification`). */
  function Recorded(w: World, p: Product, newPrice: real, clock: int): World
  {
    var v := w.(products := SetPrice(w.products, p.id, newPrice, clock),
                history := w.history + [PricePoint(w.nextHistoryId, p.id, newPrice, clock)],
                nextHistoryId := w.nextHistoryId + 1);
    if DropFires(newPrice, p.thresholdPrice, p.currentPrice) then
      v.(notifications := v.notifications
           + [Notification(v.nextNotificationId, p.id, p.currentPrice.value, newPrice, p.thresholdPrice, clock, false)],
         nextNotificationId := v.nextNotificationId + 1)
    else v
  }

  /** The run of `scrape_with_retry(url)` (requests preferred) from the scraper state in `w`. */
  ghost function Retry(s: WebScraper, w: World, url: string): RetryOutcome
  {
    Retried(s, url, false, |w.calls|, w.browser != Released)
  }

  /** The world after the retry run `o`: its fetches made, the browser they started, its pauses. */
  function AfterRetry(w: World, o: RetryOutcome): World
  {
    w.(calls := w.calls + o.made, browser := Opened(w.browser, o.made), pauses := w.pauses + o.attempts - 1)
  }

  /** `check_product_price(id)` on the world `w`: its result and the world it leaves. A missing
      product fails before any scrape; a scrape that finds nothing fails before any write; otherwise
      the scraped price is recorded against the row as it was before the update. */
  ghost function CheckOn(s: WebScraper, w: World, id: int, clock: int): (CheckResult, World)
  {
    match ProductById(w.products, id)
    case None => (CheckFailed("Product with ID " + IntToString(id) + " not found"), w)
    case Some(p) =>
      var o := Retry(s, w, p.url);
      if o.result.None? then (CheckFailed("Could not scrape current price"), AfterRetry(w, o))
      else
        var newPrice := o.result.value.price;
        var dropped := DropFires(newPrice, p.thresholdPrice, p.currentPrice);
        (Checked(p.productName, p.currentPrice, newPrice, p.thresholdPrice, dropped, dropped),
         Recorded(AfterRetry(w, o), p, newPrice, clock))
  }

  /** Checking a product changes the tables only when it succeeds: one history row, and one
      notification exactly when the price dropped; the scraper's fetches are only appended to. */
  lemma CheckOnGrowth(s: WebScraper, w: World, id: int, clock: int)
    ensures var (c, v) := CheckOn(s, w, id, clock);
      && |v.history| == |w.history| + (if c.Checked? then 1 else 0)
      && |v.notifications| == |w.notifications| + (if c.Checked? && c.priceDropped then 1 else 0)
      && (c.CheckFailed? ==> v.products == w.products && v.history == w.history && v.notifications == w.notifications)
      && |w.calls| <= |v.calls| && v.calls[..|w.calls|] == w.calls
  {
    var (c, v) := CheckOn(s, w, id, clock);
    assert v.calls[..|w.calls|] == w.calls;
  }

  /** The loop of `check_all_products` over a listing: each product is checked in turn, by id, in
      the world the previous check left. */
  ghost function Sweep(s: WebScraper, w: World, ps: seq<Product>, clock: int): (r: (seq<CheckResult>, World))
    decreases |ps|
    ensures |r.0| == |ps|
  {
    if ps == [] then ([], w)
    else
      var before := Sweep(s, w, ps[..|ps| - 1], clock);
      var last := CheckOn(s, before.1, ps[|ps| - 1].id, clock);
      (before.0 + [last.0], last.1)
  }

  /** How `check_all_products` counts one outcome for product `p`: a success counts as checked, and
      as a drop when the price dropped; a failure adds "Product <name>: <error>". */
  function TallyStep(t: SweepResult, p: Product, c: CheckResult): SweepResult
  {
    match c
    case Checked(_, _, _, _, dropped, _) =>
      t.(productsChecked := t.productsChecked + 1, priceDrops := t.priceDrops + (if dropped then 1 else 0))
    case CheckFailed(e) => t.(errors := t.errors + ["Product " + p.productName + ": " + e])
  }

  /** The report of `check_all_products` after the outcomes `cs` of the products `ps`. */
  function Tally(ps: seq<Product>, cs: seq<CheckResult>): SweepResult
    requires |ps| == |cs|
    decreases |ps|
  {
    if ps == [] then SweepResult(0, 0, [])
    else TallyStep(Tally(ps[..|ps| - 1], cs[..|cs| - 1]), ps[|ps| - 1], cs[|cs| - 1])
  }

  /** The positions of `cs` holding a success, and those holding a success that reported a drop. */
  ghost function CheckedAt(cs: seq<CheckResult>): set<int>
  {
    set i | 0 <= i < |cs| && cs[i].Checked?
  }

  ghost function DroppedAt(cs: seq<CheckResult>): set<int>
  {
    set i | 0 <= i < |cs| && cs[i].Checked? && cs[i].priceDropped
  }

  /** One more outcome adds its own position to each set it belongs to. */
  lemma CountsGrow(cs: seq<CheckResult>)
    requires cs != []
    ensures var n := |cs| - 1;
      && |CheckedAt(cs)| == |CheckedAt(cs[..n])| + (if cs[n].Checked? then 1 else 0)
      && |DroppedAt(cs)| == |DroppedAt(cs[..n])| + (if cs[n].Checked? && cs[n].priceDropped then 1 else 0)
  {
    var n := |cs| - 1;
    var c := cs[n];
    assert CheckedAt(cs) == CheckedAt(cs[..n]) + (if c.Checked? then {n} else {});
    assert n !in CheckedAt(cs[..n]);
    assert DroppedAt(cs) == DroppedAt(cs[..n]) + (if c.Checked? && c.priceDropped then {n} else {});
    assert n !in DroppedAt(cs[..n]);
  }

  /** The report counts every outcome once: the successes, the drops among them and the failures are
      exactly the outcomes of each kind, and each error names its product. */
  lemma {:induction false} TallyCounts(ps: seq<Product>, cs: seq<CheckResult>)
    requires |ps| == |cs|
    decreases |ps|
    ensures var t := Tally(ps, cs);
      && t.productsChecked == |set i | 0 <= i < |cs| && cs[i].Checked?|
      && t.priceDrops == |set i | 0 <= i < |cs| && cs[i].Checked? && cs[i].priceDropped|
      && t.productsChecked + |t.errors| == |ps|
      && t.priceDrops <= t.productsChecked
      && (forall k :: 0 <= k < |t.errors| ==> StartsWith(t.errors[k], "Product "))
  {
    if ps != [] {
      var n := |ps| - 1;
      TallyCounts(ps[..n], cs[..n]);
      CountsGrow(cs);
      assert Tally(ps, cs).productsChecked == |CheckedAt(cs)|;
      assert Tally(ps, cs).priceDrops == |DroppedAt(cs)|;
      var c := cs[n];
      if c.CheckFailed? {
        var e := "Product " + ps[n].productName + ": " + c.error;
        assert e[..|"Product "|] == "Product ";
      }
    }
  }

  /** Over a whole sweep, the history gains one row per product checked, the notifications gain one
      row per drop reported, and the scraper's fetches are only appended to. */
  lemma {:induction false} SweepGrowth(s: WebScraper, w: World, ps: seq<Product>, clock: int)
    decreases |ps|
    ensures var (cs, v) := Sweep(s, w, ps, clock);
      && |v.history| == |w.history| + Tally(ps, cs).productsChecked
      && |v.notifications| == |w.notifications| + Tally(ps, cs).priceDrops
      && |w.calls| <= |v.calls| && v.calls[..|w.calls|] == w.calls
  {
    if ps != [] {
      var n := |ps| - 1;
      SweepGrowth(s, w, ps[..n], clock);
      var before := Sweep(s, w, ps[..n], clock);
      CheckOnGrowth(s, before.1, ps[n].id, clock);
      var (cs, v) := Sweep(s, w, ps, clock);
      assert cs[..n] == before.0;
      assert v.calls[..|w.calls|] == v.calls[..|before.1.calls|][..|w.calls|];
    }
  }

  class PriceTracker {
    const db: Store
    const scraper: ScrapingManager
    const notifier: NotificationManager
    var isRunning: bool

    ghost predicate Valid()
      reads this, db, scraper, scraper.scraper
    {
      db.Valid() && scraper.scraper.Valid() && notifier.batchSize == 5
    }

    constructor(web: Web, config: EmailConfig, deliver: Email -> bool, now: int)
      ensures Valid() && !isRunning
      ensures fresh(db) && fresh(scraper) && fresh(scraper.scraper) && fresh(notifier) && fresh(notifier.notifier)
      ensures db.products == [] && db.history == [] && db.notifications == []
    {
      db := new Store(now);
      scraper := new ScrapingManager(web);
      var email := new EmailNotifier(config, deliver);
      notifier := new NotificationManager(email);
      isRunning := false;
    }

    /** The part of the tracker's state a price check reads and changes. */
    ghost function Now(): World
      reads db, scraper, scraper.scraper
    {
      World(db.products, db.history, db.notifications, db.nextHistoryId, db.nextNotificationId,
            scraper.scraper.calls, scraper.scraper.browser, scraper.pauses)
    }

    /** `add_product`: scrape first (with retries, requests preferred); on failure nothing is written.
        On success the product is inserted (replacing any row with the same url) under the caller's
        name, or the scraped one when none is given, and the scraped price is recorded as its current
        price. */
    method AddProduct(url: string, thresholdPrice: real, productName: Option<string>, checkInterval: Option<int>)
      returns (r: AddResult, ghost scraped: Option<Snapshot>)
      requires Valid()
      modifies db, scraper, scraper.scraper
      ensures Valid()
      ensures var o := Retry(scraper.scraper, old(Now()), url);
        && scraped == o.result
        && scraper.scraper.calls == old(scraper.scraper.calls) + o.made
        && scraper.scraper.browser == Opened(old(scraper.scraper.browser), o.made)
        && scraper.pauses == old(scraper.pauses) + o.attempts - 1
      ensures db.clock == old(db.clock) && db.nextNotificationId == old(db.nextNotificationId)
      ensures r.AddFailed? <==> scraped.None?
      ensures r.AddFailed? ==>
        && r.error == "Could not scrape product information from URL"
        && db.products == old(db.products) && db.history == old(db.history)
        && db.notifications == old(db.notifications)
        && db.nextProductId == old(db.nextProductId) && db.nextHistoryId == old(db.nextHistoryId)
      ensures r.Added? ==>
        && var name := if productName.None? || productName.value == "" then scraped.value.productName
                       else productName.value;
        && r == Added(old(db.nextProductId), name, scraped.value.price, thresholdPrice)
        && db.products == WithoutUrl(old(db.products), url)
             + [Product(r.productId, name, url, Some(r.currentPrice), thresholdPrice, Name(scraped.value.site),
                        true, db.clock, db.clock, IntervalOrDefault(checkInterval))]
        && db.history == old(db.history) + [PricePoint(old(db.nextHistoryId), r.productId, r.currentPrice, db.clock)]
        && db.notifications == old(db.notifications)
        && db.nextProductId == old(db.nextProductId) + 1 && db.nextHistoryId == old(db.nextHistoryId) + 1
      ensures url !in scraper.scraper.accepts ==> r.AddFailed?
    {
      if url !in scraper.scraper.accepts {
        RefusedNeverFetches(scraper.scraper, url, false, scraper.scraper.browser != Released,
                            0, [], |scraper.scraper.calls|);
      }
      ghost var attempts;
      var result;
      result, attempts := scraper.ScrapeWithRetry(url, false);
      scraped := result;
      if result.None? {
        return AddFailed("Could not scrape product information from URL"), scraped;
      }
      var snap := result.value;
      var name := if productName.None? || productName.value == "" then snap.productName else productName.value;
      var id := StorePriced(name, url, thresholdPrice, snap, checkInterval);
      r := Added(id, name, snap.price, thresholdPrice);
    }

    /** The writes of `add_product` once the page is scraped: the row is inserted (replacing any row
        with the same url) and then priced, which records the first history point. */
    method StorePriced(name: string, url: string, thresholdPrice: real, snap: Snapshot, checkInterval: Option<int>)
      returns (id: int)
      requires Valid()
      modifies db
      ensures Valid()
      ensures id == old(db.nextProductId)
      ensures db.products == WithoutUrl(old(db.products), url)
             + [Product(id, name, url, Some(snap.price), thresholdPrice, Name(snap.site),
                        true, db.clock, db.clock, IntervalOrDefault(checkInterval))]
      ensures db.history == old(db.history) + [PricePoint(old(db.nextHistoryId), id, snap.price, db.clock)]
      ensures db.notifications == old(db.notifications) && db.clock == old(db.clock)
      ensures db.nextProductId == old(db.nextProductId) + 1 && db.nextHistoryId == old(db.nextHistoryId) + 1
      ensures db.nextNotificationId == old(db.nextNotificationId)
    {
      ghost var before := db.products;
      id := db.AddProduct(name, url, thresholdPrice, Name(snap.site), checkInterval);
      ghost var row := Product(id, name, url, None, thresholdPrice, Name(snap.site), true, db.clock, db.clock,
                               IntervalOrDefault(checkInterval));
      forall p | p in WithoutUrl(before, url) ensures p.id != row.id {
        var k :| 0 <= k < |before| && before[k] == p;
      }
      SetPriceOfNewRow(WithoutUrl(before, url), row, snap.price, db.clock);
      db.UpdateProductPrice(id, snap.price);
    }

    /** `check_product_price`: the result and the new state are CheckOn's. */
    method CheckProductPrice(productId: int) returns (r: CheckResult)
      requires Valid()
      modifies db, scraper, scraper.scraper
      ensures Valid()
      ensures (r, Now()) == CheckOn(scraper.scraper, old(Now()), productId, db.clock)
      ensures db.clock == old(db.clock) && db.nextProductId == old(db.nextProductId)
    {
      ghost var before := Now();
      var product := ProductById(db.products, productId);
      if product.None? {
        return CheckFailed("Product with ID " + IntToString(productId) + " not found");
      }
      var p := product.value;
      ghost var o := Retry(scraper.scraper, before, p.url);
      ghost var attempts;
      var scraped;
      scraped, attempts := scraper.ScrapeWithRetry(p.url, false);
      assert Now() == AfterRetry(before, o);
      if scraped.None? {
        return CheckFailed("Could not scrape current price");
      }
      var newPrice := scraped.value.price;
      var dropped := RecordPrice(p, newPrice);
      r := Checked(p.productName, p.currentPrice, newPrice, p.thresholdPrice, dropped, dropped);
    }

    /** The writes of `check_product_price` once a price is scraped for `p`: the price update, then
        the notification when the drop rule fires against the price stored before the update. */
    method RecordPrice(p: Product, newPrice: real) returns (dropped: bool)
      requires Valid()
      modifies db
      ensures Valid()
      ensures dropped == DropFires(newPrice, p.thresholdPrice, p.currentPrice)
      ensures Now() == Recorded(old(Now()), p, newPrice, db.clock)
      ensures db.clock == old(db.clock) && db.nextProductId == old(db.nextProductId)
    {
      db.UpdateProductPrice(p.id, newPrice);
      dropped := DropFires(newPrice, p.thresholdPrice, p.currentPrice);
      if dropped {
        var notificationId := db.AddNotification(p.id, p.currentPrice.value, newPrice, p.thresholdPrice);
      }
    }

    /** `check_all_products`: the active products, least recently checked first, are swept once; the
        outcomes and the new state are Sweep's over that listing, and the report is their tally. */
    method CheckAllProducts() returns (r: SweepResult, ghost outcomes: seq<CheckResult>)
      requires Valid()
      modifies db, scraper, scraper.scraper
      ensures Valid()
      ensures var listed := AllProducts(old(db.products), true);
        && (outcomes, Now()) == Sweep(scraper.scraper, old(Now()), listed, db.clock)
        && r == Tally(listed, outcomes)
      ensures db.clock == old(db.clock) && db.nextProductId == old(db.nextProductId)
    {
      var products := AllProducts(db.products, true);
      r, outcomes := CheckListed(products);
    }

    /** The loop of `check_all_products` over the listing fetched at its start (later price updates
        do not change which products it visits). */
    method CheckListed(products: seq<Product>) returns (r: SweepResult, ghost outcomes: seq<CheckResult>)
      requires Valid()
      modifies db, scraper, scraper.scraper
      ensures Valid()
      ensures (outcomes, Now()) == Sweep(scraper.scraper, old(Now()), products, db.clock)
      ensures |outcomes| == |products| && r == Tally(products, outcomes)
      ensures db.clock == old(db.clock) && db.nextProductId == old(db.nextProductId)
    {
      r := SweepResult(0, 0, []);
      outcomes := [];
      var i := 0;
      while i < |products|
        invariant 0 <= i <= |products| && |outcomes| == i
        invariant Valid()
        invariant db.clock == old(db.clock) && db.nextProductId == old(db.nextProductId)
        invariant (outcomes, Now()) == Sweep(scraper.scraper, old(Now()), products[..i], db.clock)
        invariant r == Tally(products[..i], outcomes)
      {
        ghost var c;
        r, c := SweepStep(products[i], r);
        assert products[..i + 1][..i] == products[..i];
        assert (outcomes + [c])[..i] == outcomes;
        outcomes := outcomes + [c];
        i := i + 1;
      }
      assert products[..i] == products;
    }

    /** One turn of the sweep: check the product by id and tally the outcome. */
    method SweepStep(p: Product, acc: SweepResult) returns (r: SweepResult, ghost c: CheckResult)
      requires Valid()
      modifies db, scraper, scraper.scraper
      ensures Valid()
      ensures (c, Now()) == CheckOn(scraper.scraper, old(Now()), p.id, db.clock)
      ensures r == TallyStep(acc, p, c)
      ensures db.clock == old(db.clock) && db.nextProductId == old(db.nextProductId)
    {
      var check := CheckProductPrice(p.id);
      c := check;
      r := TallyStep(acc, p, check);
    }

    /** `process_notifications`: the pending notifications go to the notification manager (one
        alert each, or one summary for more than five), then every one of them is marked sent, so
        none is pending afterwards. The emails sent are the alerts delivered plus the summary. */
    method ProcessNotifications() returns (r: ProcessResult)
      requires Valid()
      modifies db, notifier.notifier
      ensures Valid()
      ensures var pending := PendingRows(old(db.notifications), old(db.products));
        && r.notificationsProcessed == |pending|
        && db.notifications == MarkAllSent(old(db.notifications), NotificationIds(pending))
        && (pending == [] ==> r == ProcessResult(0, 0, 0) && notifier.notifier.outbox == old(notifier.notifier.outbox))
        && (0 < |pending| <= 5 ==>
              && r.emailsSent == notifier.notifier.Delivered(pending)
              && r.failedEmails == |notifier.notifier.Failures(pending)|
              && notifier.notifier.outbox == old(notifier.notifier.outbox) + notifier.notifier.Attempted(pending))
        && (|pending| > 5 ==>
              && (r.emailsSent == 1 <==> notifier.notifier.SummaryOutcome(pending))
              && r.emailsSent + r.failedEmails == 1
              && notifier.notifier.outbox == old(notifier.notifier.outbox)
                   + (if ValidateConfig(notifier.notifier.config) && NoZeroOldPrice(pending) then [SummaryEmail(pending)] else []))
      ensures notifier.notifier.outbox
        == old(notifier.notifier.outbox) + notifier.Handed(PendingRows(old(db.notifications), old(db.products)))
      ensures PendingRows(db.notifications, db.products) == []
      ensures db.products == old(db.products) && db.history == old(db.history) && db.clock == old(db.clock)
      ensures db.nextProductId == old(db.nextProductId) && db.nextHistoryId == old(db.nextHistoryId)
        && db.nextNotificationId == old(db.nextNotificationId)
    {
      var pending := PendingRows(db.notifications, db.products);
      if pending == [] {
        MarkEachSent(pending);
        return ProcessResult(0, 0, 0);
      }
      var report := notifier.ProcessNotifications(pending);
      MarkEachSent(pending);
      r := ProcessResult(|pending|, report.individualEmailsSent + report.summaryEmailsSent, report.failedEmails);
    }

    /** The marking loop of `process_notifications`: every listed notification is marked sent, and
        when the list is the pending one, nothing is pending afterwards. */
    method MarkEachSent(pending: seq<Pending>)
      requires Valid()
      modifies db
      ensures Valid()
      ensures db.notifications == MarkAllSent(old(db.notifications), NotificationIds(pending))
      ensures pending == PendingRows(old(db.notifications), db.products) ==>
        PendingRows(db.notifications, db.products) == []
      ensures db.products == old(db.products) && db.history == old(db.history) && db.clock == old(db.clock)
      ensures db.nextProductId == old(db.nextProductId) && db.nextHistoryId == old(db.nextHistoryId)
        && db.nextNotificationId == old(db.nextNotificationId)
    {
      var i := 0;
      while i < |pending|
        invariant 0 <= i <= |pending|
        invariant Valid()
        invariant db.products == old(db.products) && db.history == old(db.history) && db.clock == old(db.clock)
        invariant db.nextProductId == old(db.nextProductId) && db.nextHistoryId == old(db.nextHistoryId)
          && db.nextNotificationId == old(db.nextNotificationId)
        invariant db.notifications == MarkAllSent(old(db.notifications), NotificationIds(pending[..i]))
      {
        db.MarkNotificationSent(pending[i].notification.id);
        MarkOneMore(old(db.notifications), pending, i);
        i := i + 1;
      }
      assert pending[..i] == pending;
      if pending == PendingRows(old(db.notifications), db.products) {
        PendingAllMarked(old(db.notifications), db.products);
      }
    }

    /** `run_price_check_cycle`: a sweep over the active products, then the notifications it raised
        (and any left over) are sent and marked; afterwards nothing is pending. */
    method RunPriceCheckCycle()
      requires Valid()
      modifies db, scraper, scraper.scraper, notifier.notifier
      ensures Valid()
      ensures var w := Sweep(scraper.scraper, old(Now()), AllProducts(old(db.products), true), db.clock).1;
        && db.products == w.products && db.history == w.history
        && db.notifications == MarkAllSent(w.notifications, NotificationIds(PendingRows(w.notifications, w.products)))
        && scraper.scraper.calls == w.calls && scraper.scraper.browser == w.browser
        && scraper.pauses == w.pauses
        && db.nextHistoryId == w.nextHistoryId && db.nextNotificationId == w.nextNotificationId
        && db.nextProductId == old(db.nextProductId)
        && notifier.notifier.outbox
             == old(notifier.notifier.outbox) + notifier.Handed(PendingRows(w.notifications, w.products))
      ensures PendingRows(db.notifications, db.products) == []
      ensures db.clock == old(db.clock)
    {
      var sweep, outcomes := CheckAllProducts();
      var processed := ProcessNotifications();
    }

    /** `start_scheduler` up to its polling loop: one cycle at once, then the tracker is running. */
    method StartScheduler()
      requires Valid()
      modifies this, db, scraper, scraper.scraper, notifier.notifier
      ensures Valid() && isRunning
      ensures var w := Sweep(scraper.scraper, old(Now()), AllProducts(old(db.products), true), db.clock).1;
        && db.products == w.products && db.history == w.history
        && db.notifications == MarkAllSent(w.notifications, NotificationIds(PendingRows(w.notifications, w.products)))
        && scraper.scraper.calls == w.calls && scraper.scraper.browser == w.browser
        && scraper.pauses == w.pauses
        && db.nextHistoryId == w.nextHistoryId && db.nextNotificationId == w.nextNotificationId
        && db.nextProductId == old(db.nextProductId)
        && notifier.notifier.outbox
             == old(notifier.notifier.outbox) + notifier.Handed(PendingRows(w.notifications, w.products))
      ensures PendingRows(db.notifications, db.products) == []
      ensures db.clock == old(db.clock)
    {
      RunPriceCheckCycle();
      isRunning := true;
    }

    /** `stop_scheduler`: not running any more, and the browser is released if one was started. */
    method StopScheduler()
      requires Valid()
      modifies this, scraper.scraper
      ensures Valid() && !isRunning
      ensures scraper.scraper.browser == (if old(scraper.scraper.browser) == Unset then Unset else Released)
      ensures scraper.scraper.calls == old(scraper.scraper.calls)
    {
      isRunning := false;
      scraper.Cleanup();
    }

    /** `get_statistics`: the active-product count it reports agrees with the database's own count. */
    function GetStatistics(): (s: TrackerStats)
      reads db
      ensures s.activeProducts == s.database.totalProducts
      ensures s.pendingNotifications <= |db.notifications|
      ensures s.database.productsWithDrops <= s.database.totalNotifications
    {
      var active := AllProducts(db.products, true);
      AllProductsListing(db.products, true);
      assert |active| == |multiset(active)| == |multiset(ActiveRows(db.products))| == |ActiveRows(db.products)|;
      TrackerStats(Stats(db.products, db.notifications), |active|, |PendingRows(db.notifications, db.products)|)
    }

    /** `export_price_history`: CSV when the format reads "csv" in any letter case, JSON otherwise. */
    function ExportPriceHistory(productId: int, format: string): (r: Export)
      reads db
      ensures r.CsvExport? <==> AsciiLower(format) == "csv"
      ensures r.CsvExport? ==>
        && ReadCsv(r.lines) == Some(Pairs(HistoryOf(db.history, productId)))
        && r.filename == "price_history_" + IntToString(productId) + ".csv"
      ensures r.JsonExport? ==> forall x :: x in r.history <==> x in db.history && x.productId == productId
    {
      var h := HistoryOf(db.history, productId);
      CsvRoundTrip(h);
      if AsciiLower(format) == "csv" then CsvExport(CsvLines(h), "price_history_" + IntToString(productId) + ".csv")
      else JsonExport(h)
    }
  }

  /** An empty history still exports: the CSV is the header line alone. */
  lemma EmptyHistoryExports(h: seq<PricePoint>)
    requires h == []
    ensures CsvLines(h) == [HeaderLine(["Date", "Price"])]
    ensures ReadCsv(CsvLines(h)) == Some([])
  {
    CsvRoundTrip(h);
  }
}
