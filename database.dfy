/** `DatabaseManager`: the three tables (products, price_history, notifications) held in memory, the
    statements that change them, and the queries over them. SQL's CURRENT_TIMESTAMP is the store's
    own clock, which only Tick advances. */
module Database {
  import opened Wrappers

  /** `Config.DEFAULT_CHECK_INTERVAL`, in seconds. */
  const DefaultCheckInterval: int := 3600

  /** A row of `products`; `currentPrice` is NULL until the first price is recorded. */
  datatype Product = Product(id: int, productName: string, url: string, currentPrice: Option<real>,
                             thresholdPrice: real, siteType: string, isActive: bool,
                             createdAt: int, lastChecked: int, checkInterval: int)

  /** A row of `price_history`. */
  datatype PricePoint = PricePoint(id: int, productId: int, price: real, timestamp: int)

  /** A row of `notifications`. */
  datatype Notification = Notification(id: int, productId: int, oldPrice: real, newPrice: real,
                                       thresholdPrice: real, sentAt: int, emailSent: bool)

  /** A row of `get_pending_notifications`: the notification joined with its product's name and url. */
  datatype Pending = Pending(notification: Notification, productName: string, url: string)

  /** The counts `get_statistics` reports. */
  datatype Statistics = Statistics(totalProducts: nat, productsWithDrops: nat, totalNotifications: nat)

  // ---------------------------------------------------------------------------------------------
  // Table invariants.

  /** Product ids grow along the table (AUTOINCREMENT never reuses one), stay below the next id to
      hand out, and no two rows share a url (the UNIQUE constraint). */
  ghost predicate ProductsKeyed(ps: seq<Product>, next: int)
  {
    (forall i, j :: 0 <= i < j < |ps| ==> ps[i].id < ps[j].id && ps[i].url != ps[j].url)
    && (forall i :: 0 <= i < |ps| ==> 1 <= ps[i].id < next) && 1 <= next
  }

  /** History rows are in insertion order: ids grow, timestamps never go back, none is in the future. */
  ghost predicate HistoryOrdered(h: seq<PricePoint>, next: int, clock: int)
  {
    (forall i, j :: 0 <= i < j < |h| ==> h[i].id < h[j].id && h[i].timestamp <= h[j].timestamp)
    && (forall i :: 0 <= i < |h| ==> 1 <= h[i].id < next && h[i].timestamp <= clock) && 1 <= next
  }

  /** Notification rows are in insertion order, as history rows are. */
  ghost predicate NotificationsOrdered(ns: seq<Notification>, next: int, clock: int)
  {
    (forall i, j :: 0 <= i < j < |ns| ==> ns[i].id < ns[j].id && ns[i].sentAt <= ns[j].sentAt)
    && (forall i :: 0 <= i < |ns| ==> 1 <= ns[i].id < next && ns[i].sentAt <= clock) && 1 <= next
  }

  // ---------------------------------------------------------------------------------------------
  // What the statements do to a table.

  /** `check_interval or DEFAULT_CHECK_INTERVAL`: a missing or zero interval means the default. */
  function IntervalOrDefault(checkInterval: Option<int>): (r: int)
    ensures checkInterval.Some? && checkInterval.value != 0 ==> r == checkInterval.value
    ensures checkInterval.None? || checkInterval.value == 0 ==> r == DefaultCheckInterval
  {
    match checkInterval
    case None => DefaultCheckInterval
    case Some(v) => if v == 0 then DefaultCheckInterval else v
  }

  /** The REPLACE half of INSERT OR REPLACE: the row holding `url`, if any, is deleted; the others
      keep their order. */
  function WithoutUrl(ps: seq<Product>, url: string): (r: seq<Product>)
    ensures |r| <= |ps|
    ensures forall p :: p in r <==> p in ps && p.url != url
  {
    if ps == [] then []
    else (if ps[0].url == url then [] else [ps[0]]) + WithoutUrl(ps[1..], url)
  }

  /** `UPDATE products SET current_price = ?, last_checked = CURRENT_TIMESTAMP WHERE id = ?`. */
  function SetPrice(ps: seq<Product>, id: int, price: real, now: int): (r: seq<Product>)
    ensures |r| == |ps|
    ensures forall i :: 0 <= i < |ps| && ps[i].id == id ==>
      r[i] == ps[i].(currentPrice := Some(price), lastChecked := now)
    ensures forall i :: 0 <= i < |ps| && ps[i].id != id ==> r[i] == ps[i]
  {
    if ps == [] then []
    else [if ps[0].id == id then ps[0].(currentPrice := Some(price), lastChecked := now) else ps[0]]
         + SetPrice(ps[1..], id, price, now)
  }

  /** `UPDATE products SET is_active = 0 WHERE id = ?`. */
  function SetInactive(ps: seq<Product>, id: int): (r: seq<Product>)
    ensures |r| == |ps|
    ensures forall i :: 0 <= i < |ps| && ps[i].id == id ==> r[i] == ps[i].(isActive := false)
    ensures forall i :: 0 <= i < |ps| && ps[i].id != id ==> r[i] == ps[i]
  {
    if ps == [] then []
    else [if ps[0].id == id then ps[0].(isActive := false) else ps[0]] + SetInactive(ps[1..], id)
  }

  /** `UPDATE notifications SET email_sent = 1 WHERE id = ?`. */
  function MarkSent(ns: seq<Notification>, id: int): (r: seq<Notification>)
    ensures |r| == |ns|
    ensures forall i :: 0 <= i < |ns| && ns[i].id == id ==> r[i] == ns[i].(emailSent := true)
    ensures forall i :: 0 <= i < |ns| && ns[i].id != id ==> r[i] == ns[i]
  {
    if ns == [] then []
    else [if ns[0].id == id then ns[0].(emailSent := true) else ns[0]] + MarkSent(ns[1..], id)
  }

  // ---------------------------------------------------------------------------------------------
  // Queries.

  /** `SELECT * FROM products WHERE id = ?`: the row with that id, if there is one. */
  function ProductById(ps: seq<Product>, id: int): (r: Option<Product>)
    ensures r.Some? ==> r.value in ps && r.value.id == id
    ensures r.None? ==> forall p :: p in ps ==> p.id != id
  {
    if ps == [] then None
    else if ps[0].id == id then Some(ps[0])
    else ProductById(ps[1..], id)
  }

  /** The rows with `is_active = 1`, in table order. */
  function ActiveRows(ps: seq<Product>): (r: seq<Product>)
    ensures |r| <= |ps|
    ensures forall p :: p in r <==> p in ps && p.isActive
  {
    if ps == [] then []
    else (if ps[0].isActive then [ps[0]] else []) + ActiveRows(ps[1..])
  }

  ghost predicate SortedByLastChecked(s: seq<Product>)
  {
    forall i, j :: 0 <= i < j < |s| ==> s[i].lastChecked <= s[j].lastChecked
  }

  /** `x` placed before the first row checked later than it, so rows checked at the same time keep
      the order they came in. */
  function InsertByLastChecked(x: Product, s: seq<Product>): (r: seq<Product>)
    ensures |r| == |s| + 1 && (r[0] == x || (s != [] && r[0] == s[0]))
    ensures SortedByLastChecked(s) ==> SortedByLastChecked(r)
  {
    if s == [] then [x]
    else if s[0].lastChecked > x.lastChecked then [x] + s
    else [s[0]] + InsertByLastChecked(x, s[1..])
  }

  /** Insertion adds `x` and loses nothing. */
  lemma {:induction false} InsertByLastCheckedPermutes(x: Product, s: seq<Product>)
    decreases |s|
    ensures multiset(InsertByLastChecked(x, s)) == multiset(s) + multiset{x}
  {
    if s != [] && s[0].lastChecked <= x.lastChecked {
      InsertByLastCheckedPermutes(x, s[1..]);
      assert s == [s[0]] + s[1..];
    }
  }

  /** `ORDER BY last_checked ASC`, ties kept in table order. */
  function SortByLastChecked(s: seq<Product>): (r: seq<Product>)
    ensures |r| == |s|
    ensures SortedByLastChecked(r)
  {
    if s == [] then []
    else InsertByLastChecked(s[|s| - 1], SortByLastChecked(s[..|s| - 1]))
  }

  /** The ordering is a permutation of the rows. */
  lemma {:induction false} SortByLastCheckedPermutes(s: seq<Product>)
    decreases |s|
    ensures multiset(SortByLastChecked(s)) == multiset(s)
  {
    if s != [] {
      var init := s[..|s| - 1];
      SortByLastCheckedPermutes(init);
      InsertByLastCheckedPermutes(s[|s| - 1], SortByLastChecked(init));
      assert s == init + [s[|s| - 1]];
    }
  }

  /** `get_all_products`: the active rows, or every row, least recently checked first. */
  function AllProducts(ps: seq<Product>, activeOnly: bool): (r: seq<Product>)
    ensures SortedByLastChecked(r)
  {
    SortByLastChecked(if activeOnly then ActiveRows(ps) else ps)
  }

  /** The listing holds exactly the active rows (or every row), each as often as in the table. */
  lemma AllProductsListing(ps: seq<Product>, activeOnly: bool)
    ensures var r := AllProducts(ps, activeOnly);
      && multiset(r) == multiset(if activeOnly then ActiveRows(ps) else ps)
      && forall p :: p in r <==> p in ps && (activeOnly ==> p.isActive)
  {
    var r := AllProducts(ps, activeOnly);
    SortByLastCheckedPermutes(if activeOnly then ActiveRows(ps) else ps);
    assert forall p :: p in r <==> p in multiset(r);
  }

  /** `get_price_history`: the product's history rows, in table order. */
  function HistoryOf(h: seq<PricePoint>, productId: int): (r: seq<PricePoint>)
    ensures |r| <= |h|
    ensures forall p :: p in r <==> p in h && p.productId == productId
  {
    if h == [] then []
    else (if h[0].productId == productId then [h[0]] else []) + HistoryOf(h[1..], productId)
  }

  /** `get_pending_notifications`: the unsent notifications, each joined with its product's name and
      url, in table order; a notification whose product row is gone drops out of the join. */
  function PendingRows(ns: seq<Notification>, ps: seq<Product>): (r: seq<Pending>)
    ensures |r| <= |ns|
    ensures forall x :: x in r ==> x.notification in ns && !x.notification.emailSent
  {
    if ns == [] then []
    else
      var n := ns[0];
      (match ProductById(ps, n.productId)
       case Some(p) => if n.emailSent then [] else [Pending(n, p.productName, p.url)]
       case None => [])
      + PendingRows(ns[1..], ps)
  }

  /** `COUNT(*) ... WHERE email_sent = 1`. */
  function SentCount(ns: seq<Notification>): (c: nat)
    ensures c <= |ns|
  {
    if ns == [] then 0 else SentCount(ns[..|ns| - 1]) + (if ns[|ns| - 1].emailSent then 1 else 0)
  }

  /** The product ids among the sent notifications (`COUNT(DISTINCT product_id)` counts them). */
  function SentProductIds(ns: seq<Notification>): set<int>
  {
    if ns == [] then {}
    else SentProductIds(ns[..|ns| - 1]) + (if ns[|ns| - 1].emailSent then {ns[|ns| - 1].productId} else {})
  }

  /** `get_statistics` without the average drop percentage. */
  function Stats(ps: seq<Product>, ns: seq<Notification>): (s: Statistics)
    ensures s.totalProducts == |ActiveRows(ps)|
    ensures s.productsWithDrops <= s.totalNotifications
    ensures forall x :: x in SentProductIds(ns) <==> exists n :: n in ns && n.emailSent && n.productId == x
  {
    SentIdsBound(ns);
    SentIdsMeaning(ns);
    Statistics(|ActiveRows(ps)|, |SentProductIds(ns)|, SentCount(ns))
  }

  // ---------------------------------------------------------------------------------------------
  // Lemmas about the tables.

  /** SentCount counts the rows whose email was sent, each once. */
  lemma {:induction false} SentCountCounts(ns: seq<Notification>)
    ensures SentCount(ns) == |set i | 0 <= i < |ns| && ns[i].emailSent|
  {
    if ns != [] {
      var n := |ns| - 1;
      var init := ns[..n];
      SentCountCounts(init);
      var before := set i | 0 <= i < |init| && init[i].emailSent;
      var after := set i | 0 <= i < |ns| && ns[i].emailSent;
      assert after == before + (if ns[n].emailSent then {n} else {});
      assert n !in before;
    }
  }

  /** No more distinct products have sent notifications than there are sent notifications. */
  lemma {:induction false} SentIdsBound(ns: seq<Notification>)
    ensures |SentProductIds(ns)| <= SentCount(ns)
  {
    if ns != [] {
      var n := |ns| - 1;
      SentIdsBound(ns[..n]);
      var last: set<int> := if ns[n].emailSent then {ns[n].productId} else {};
      assert |SentProductIds(ns[..n]) + last| <= |SentProductIds(ns[..n])| + |last|;
    }
  }

  /** SentProductIds holds exactly the product ids of the sent notifications. */
  lemma {:induction false} SentIdsMeaning(ns: seq<Notification>)
    ensures forall x :: x in SentProductIds(ns) <==> exists n :: n in ns && n.emailSent && n.productId == x
  {
    if ns != [] {
      var k := |ns| - 1;
      var init := ns[..k];
      SentIdsMeaning(init);
      assert ns == init + [ns[k]];
      forall x | x in SentProductIds(ns)
        ensures exists n :: n in ns && n.emailSent && n.productId == x
      {
        if ns[k].emailSent && x == ns[k].productId {
          assert ns[k] in ns;
        } else {
          assert x in SentProductIds(init);
          var n :| n in init && n.emailSent && n.productId == x;
          assert n in ns;
        }
      }
      forall x | exists n :: n in ns && n.emailSent && n.productId == x
        ensures x in SentProductIds(ns)
      {
        var n :| n in ns && n.emailSent && n.productId == x;
        if n != ns[k] {
          assert n in init;
        }
      }
    }
  }

  /** Recording a price changes no id and no url, so the table stays keyed. */
  lemma SetPriceKeyed(ps: seq<Product>, id: int, price: real, now: int, next: int)
    requires ProductsKeyed(ps, next)
    ensures ProductsKeyed(SetPrice(ps, id, price, now), next)
  {
    var r := SetPrice(ps, id, price, now);
    assert forall i :: 0 <= i < |ps| ==> r[i].id == ps[i].id && r[i].url == ps[i].url;
  }

  /** Deactivating changes no id and no url, so the table stays keyed. */
  lemma SetInactiveKeyed(ps: seq<Product>, id: int, next: int)
    requires ProductsKeyed(ps, next)
    ensures ProductsKeyed(SetInactive(ps, id), next)
  {
    var r := SetInactive(ps, id);
    assert forall i :: 0 <= i < |ps| ==> r[i].id == ps[i].id && r[i].url == ps[i].url;
  }

  /** Marking a notification sent changes no id and no time, so the table stays ordered. */
  lemma MarkSentOrdered(ns: seq<Notification>, id: int, next: int, clock: int)
    requires NotificationsOrdered(ns, next, clock)
    ensures NotificationsOrdered(MarkSent(ns, id), next, clock)
  {
    var r := MarkSent(ns, id);
    assert forall i :: 0 <= i < |ns| ==> r[i].id == ns[i].id && r[i].sentAt == ns[i].sentAt;
  }

  /** A notification with a fresh id, stamped now, keeps the table ordered. */
  lemma NotificationAppendOrdered(ns: seq<Notification>, n: Notification, next: int, clock: int)
    requires NotificationsOrdered(ns, next, clock) && n.id == next && n.sentAt == clock
    ensures NotificationsOrdered(ns + [n], next + 1, clock)
  {
    var r := ns + [n];
    forall i, j | 0 <= i < j < |r| ensures r[i].id < r[j].id && r[i].sentAt <= r[j].sentAt {
      assert r[i] == ns[i];
    }
  }

  /** A history row with a fresh id, stamped now, keeps the history ordered. */
  lemma HistoryAppendOrdered(h: seq<PricePoint>, point: PricePoint, next: int, clock: int)
    requires HistoryOrdered(h, next, clock) && point.id == next && point.timestamp == clock
    ensures HistoryOrdered(h + [point], next + 1, clock)
  {
    var r := h + [point];
    forall i, j | 0 <= i < j < |r| ensures r[i].id < r[j].id && r[i].timestamp <= r[j].timestamp {
      assert r[i] == h[i];
    }
  }

  /** A row ahead of a keyed table, with a smaller id and another url, keeps it keyed. */
  lemma KeyedCons(x: Product, rest: seq<Product>, next: int)
    requires ProductsKeyed(rest, next) && 1 <= x.id < next
    requires forall q :: q in rest ==> x.id < q.id && x.url != q.url
    ensures ProductsKeyed([x] + rest, next)
  {
    var r := [x] + rest;
    forall i, j | 0 <= i < j < |r| ensures r[i].id < r[j].id && r[i].url != r[j].url {
      assert r[j] == rest[j - 1];
      if i > 0 {
        assert r[i] == rest[i - 1];
      }
    }
  }

  /** Deleting the row of one url keeps the product table keyed. */
  lemma {:induction false} WithoutUrlKeyed(ps: seq<Product>, url: string, next: int)
    requires ProductsKeyed(ps, next)
    ensures ProductsKeyed(WithoutUrl(ps, url), next)
  {
    if ps != [] {
      var tail := ps[1..];
      assert ProductsKeyed(tail, next) by {
        forall i, j | 0 <= i < j < |tail| ensures tail[i].id < tail[j].id && tail[i].url != tail[j].url {
          assert tail[i] == ps[i + 1] && tail[j] == ps[j + 1];
        }
      }
      WithoutUrlKeyed(tail, url, next);
      var rest := WithoutUrl(tail, url);
      if ps[0].url == url {
        assert WithoutUrl(ps, url) == rest;
      } else {
        forall q | q in rest ensures ps[0].id < q.id && ps[0].url != q.url {
          var k :| 0 <= k < |tail| && tail[k] == q;
          assert ps[k + 1] == q;
        }
        KeyedCons(ps[0], rest, next);
      }
    }
  }

  /** Inserting or replacing a url leaves exactly one row with that url, the new one; every row of
      another url is kept. */
  lemma AddProductReplaces(ps: seq<Product>, row: Product, p: Product)
    requires p in WithoutUrl(ps, row.url) + [row]
    ensures p.url == row.url ==> p == row
    ensures p.url != row.url ==> p in ps
  {
  }

  /** A notification added unsent for a product in the table is pending, behind every earlier one. */
  lemma {:induction false} PendingAppend(ns: seq<Notification>, ps: seq<Product>, n: Notification)
    ensures PendingRows(ns + [n], ps) == PendingRows(ns, ps) + PendingRows([n], ps)
  {
    if ns == [] {
      assert ns + [n] == [n];
    } else {
      assert (ns + [n])[1..] == ns[1..] + [n];
      PendingAppend(ns[1..], ps, n);
    }
  }

  /** A fresh unsent notification of an existing product appears as the last pending row. */
  lemma AddedNotificationIsPending(ns: seq<Notification>, ps: seq<Product>, n: Notification)
    requires !n.emailSent && ProductById(ps, n.productId).Some?
    ensures var p := ProductById(ps, n.productId).value;
      PendingRows(ns + [n], ps) == PendingRows(ns, ps) + [Pending(n, p.productName, p.url)]
  {
    PendingAppend(ns, ps, n);
  }

  ghost predicate PendingInTimeOrder(r: seq<Pending>)
  {
    forall i, j :: 0 <= i < j < |r| ==> r[i].notification.sentAt <= r[j].notification.sentAt
  }

  lemma PendingCons(head: seq<Pending>, rest: seq<Pending>, t: int)
    requires PendingInTimeOrder(rest) && |head| <= 1
    requires forall x :: x in head ==> x.notification.sentAt == t
    requires forall x :: x in rest ==> t <= x.notification.sentAt
    ensures PendingInTimeOrder(head + rest)
  {
    var r := head + rest;
    forall i, j | 0 <= i < j < |r| ensures r[i].notification.sentAt <= r[j].notification.sentAt {
      assert r[j] == rest[j - |head|];
      if i < |head| {
        assert r[i] in head && r[j] in rest;
      } else {
        assert r[i] == rest[i - |head|];
      }
    }
  }

  /** Pending rows come out in `sent_at` order, because the table is in that order. */
  lemma {:induction false} PendingSorted(ns: seq<Notification>, ps: seq<Product>)
    requires forall i, j :: 0 <= i < j < |ns| ==> ns[i].sentAt <= ns[j].sentAt
    ensures PendingInTimeOrder(PendingRows(ns, ps))
  {
    if ns != [] {
      var tail := ns[1..];
      assert forall i, j :: 0 <= i < j < |tail| ==> tail[i].sentAt <= tail[j].sentAt by {
        forall i, j | 0 <= i < j < |tail| ensures tail[i].sentAt <= tail[j].sentAt {
          assert tail[i] == ns[i + 1] && tail[j] == ns[j + 1];
        }
      }
      PendingSorted(tail, ps);
      var r := PendingRows(ns, ps);
      var rest := PendingRows(tail, ps);
      var head := r[..|r| - |rest|];
      assert r == head + rest;
      forall x | x in rest ensures ns[0].sentAt <= x.notification.sentAt {
        var k :| 0 <= k < |tail| && tail[k] == x.notification;
        assert ns[k + 1] == x.notification;
      }
      PendingCons(head, rest, ns[0].sentAt);
    }
  }

  /** Marking a notification sent twice is the same as marking it once. */
  lemma {:induction false} MarkSentIdempotent(ns: seq<Notification>, id: int)
    ensures MarkSent(MarkSent(ns, id), id) == MarkSent(ns, id)
  {
    if ns != [] {
      MarkSentIdempotent(ns[1..], id);
      assert MarkSent(ns, id)[1..] == MarkSent(ns[1..], id);
    }
  }

  /** Once every pending notification's id is marked sent, nothing is pending any more. */
  lemma {:induction false} MarkingAllClearsPending(ns: seq<Notification>, ps: seq<Product>, ids: seq<int>)
    requires forall x :: x in PendingRows(ns, ps) ==> x.notification.id in ids
    ensures PendingRows(MarkAllSent(ns, ids), ps) == []
  {
    if ns != [] {
      var n := ns[0];
      assert forall x :: x in PendingRows(ns[1..], ps) ==> x in PendingRows(ns, ps);
      MarkingAllClearsPending(ns[1..], ps, ids);
      MarkAllSentHead(ns, ids);
      if !n.emailSent && ProductById(ps, n.productId).Some? {
        var p := ProductById(ps, n.productId).value;
        assert Pending(n, p.productName, p.url) in PendingRows(ns, ps);
      }
    }
  }

  /** Every id in `ids` marked sent, one after the other. */
  function MarkAllSent(ns: seq<Notification>, ids: seq<int>): (r: seq<Notification>)
    ensures |r| == |ns|
  {
    if ids == [] then ns else MarkSent(MarkAllSent(ns, ids[..|ids| - 1]), ids[|ids| - 1])
  }

  /** Marking a list of ids works row by row: a row ends up sent when it was or its id is listed. */
  lemma {:induction false} MarkAllSentRow(ns: seq<Notification>, ids: seq<int>, i: int)
    requires 0 <= i < |ns|
    ensures MarkAllSent(ns, ids)[i] == ns[i].(emailSent := ns[i].emailSent || ns[i].id in ids)
  {
    if ids != [] {
      MarkAllSentRow(ns, ids[..|ids| - 1], i);
      assert ids == ids[..|ids| - 1] + [ids[|ids| - 1]];
    }
  }

  lemma MarkAllSentHead(ns: seq<Notification>, ids: seq<int>)
    requires ns != []
    ensures MarkAllSent(ns, ids) == [ns[0].(emailSent := ns[0].emailSent || ns[0].id in ids)]
                                    + MarkAllSent(ns[1..], ids)
  {
    var l := MarkAllSent(ns, ids);
    var r := [ns[0].(emailSent := ns[0].emailSent || ns[0].id in ids)] + MarkAllSent(ns[1..], ids);
    forall i | 0 <= i < |l| ensures l[i] == r[i] {
      MarkAllSentRow(ns, ids, i);
      if i > 0 {
        MarkAllSentRow(ns[1..], ids, i - 1);
      }
    }
  }

  /** A price recorded for a product that is not in the table yet, appended last, lands on that row. */
  lemma SetPriceOfNewRow(ps: seq<Product>, row: Product, price: real, now: int)
    requires forall p :: p in ps ==> p.id != row.id
    ensures SetPrice(ps + [row], row.id, price, now)
         == ps + [row.(currentPrice := Some(price), lastChecked := now)]
  {
    var l := SetPrice(ps + [row], row.id, price, now);
    var r := ps + [row.(currentPrice := Some(price), lastChecked := now)];
    forall i | 0 <= i < |l| ensures l[i] == r[i] {
      if i < |ps| {
        assert (ps + [row])[i] == ps[i] && ps[i] in ps;
      }
    }
  }

  /** After a price update the product reads back with that price as its current one. */
  lemma {:induction false} StoredPriceIsLatest(ps: seq<Product>, id: int, price: real, now: int)
    requires ProductById(ps, id).Some?
    ensures ProductById(SetPrice(ps, id, price, now), id)
         == Some(ProductById(ps, id).value.(currentPrice := Some(price), lastChecked := now))
  {
    var r := SetPrice(ps, id, price, now);
    assert r[0] == (if ps[0].id == id then ps[0].(currentPrice := Some(price), lastChecked := now) else ps[0]);
    if ps[0].id != id {
      assert r[1..] == SetPrice(ps[1..], id, price, now);
      StoredPriceIsLatest(ps[1..], id, price, now);
    }
  }

  /** A deactivated product drops out of the active listing but can still be fetched by id. */
  lemma DeactivatedStaysFetchable(ps: seq<Product>, id: int)
    requires ProductById(ps, id).Some?
    ensures var after := SetInactive(ps, id);
      (forall p :: p in AllProducts(after, true) ==> p.id != id)
      && ProductById(after, id).Some? && !ProductById(after, id).value.isActive
  {
    var after := SetInactive(ps, id);
    AllProductsListing(after, true);
    var k :| 0 <= k < |ps| && ps[k] == ProductById(ps, id).value;
    assert after[k].id == id;
    forall p | p in after && p.id == id ensures !p.isActive {
      var j :| 0 <= j < |after| && after[j] == p;
    }
  }

  /** A price update appends the point to that product's history and to no other product's. */
  lemma {:induction false} HistoryAppend(h: seq<PricePoint>, point: PricePoint, productId: int)
    ensures HistoryOf(h + [point], productId)
         == HistoryOf(h, productId) + (if point.productId == productId then [point] else [])
  {
    if h == [] {
      assert h + [point] == [point];
      assert [point][1..] == [];
    } else {
      var head := if h[0].productId == productId then [h[0]] else [];
      assert (h + [point])[0] == h[0];
      assert (h + [point])[1..] == h[1..] + [point];
      HistoryAppend(h[1..], point, productId);
      assert HistoryOf(h + [point], productId) == head + HistoryOf(h[1..] + [point], productId);
      assert HistoryOf(h, productId) == head + HistoryOf(h[1..], productId);
    }
  }


  ghost predicate HistoryInTimeOrder(r: seq<PricePoint>)
  {
    forall i, j :: 0 <= i < j < |r| ==> r[i].timestamp <= r[j].timestamp
  }

  lemma HistoryCons(head: seq<PricePoint>, rest: seq<PricePoint>, t: int)
    requires HistoryInTimeOrder(rest) && |head| <= 1
    requires forall x :: x in head ==> x.timestamp == t
    requires forall x :: x in rest ==> t <= x.timestamp
    ensures HistoryInTimeOrder(head + rest)
  {
    var r := head + rest;
    forall i, j | 0 <= i < j < |r| ensures r[i].timestamp <= r[j].timestamp {
      assert r[j] == rest[j - |head|];
      if i < |head| {
        assert r[i] in head && r[j] in rest;
      } else {
        assert r[i] == rest[i - |head|];
      }
    }
  }

  /** A product's history comes out oldest first, because the table is in timestamp order. */
  lemma {:induction false} HistorySorted(h: seq<PricePoint>, productId: int)
    requires HistoryInTimeOrder(h)
    ensures HistoryInTimeOrder(HistoryOf(h, productId))
  {
    if h != [] {
      var tail := h[1..];
      assert HistoryInTimeOrder(tail) by {
        forall i, j | 0 <= i < j < |tail| ensures tail[i].timestamp <= tail[j].timestamp {
          assert tail[i] == h[i + 1] && tail[j] == h[j + 1];
        }
      }
      HistorySorted(tail, productId);
      var rest := HistoryOf(tail, productId);
      var head := if h[0].productId == productId then [h[0]] else [];
      assert HistoryOf(h, productId) == head + rest;
      forall x | x in rest ensures h[0].timestamp <= x.timestamp {
        var k :| 0 <= k < |tail| && tail[k] == x;
        assert h[k + 1] == x;
      }
      HistoryCons(head, rest, h[0].timestamp);
    }
  }

  // ---------------------------------------------------------------------------------------------
  // The store.

  class Store {
    var products: seq<Product>
    var history: seq<PricePoint>
    var notifications: seq<Notification>
    /** The AUTOINCREMENT counters: the id the next insert into each table receives. */
    var nextProductId: int
    var nextHistoryId: int
    var nextNotificationId: int
    /** CURRENT_TIMESTAMP. */
    var clock: int

    ghost predicate Valid()
      reads this
    {
      ProductsKeyed(products, nextProductId)
      && HistoryOrdered(history, nextHistoryId, clock)
      && NotificationsOrdered(notifications, nextNotificationId, clock)
    }

    /** `init_database` on a fresh file: three empty tables. */
    constructor(now: int)
      ensures Valid()
      ensures products == [] && history == [] && notifications == [] && clock == now
      ensures nextProductId == 1 && nextHistoryId == 1 && nextNotificationId == 1
    {
      products, history, notifications := [], [], [];
      nextProductId, nextHistoryId, nextNotificationId := 1, 1, 1;
      clock := now;
    }

    /** Time passes. */
    method Tick(elapsed: nat)
      requires Valid()
      modifies this
      ensures Valid()
      ensures clock == old(clock) + elapsed
      ensures products == old(products) && history == old(history) && notifications == old(notifications)
      ensures nextProductId == old(nextProductId) && nextHistoryId == old(nextHistoryId)
      ensures nextNotificationId == old(nextNotificationId)
    {
      clock := clock + elapsed;
    }

    /** `add_product`: INSERT OR REPLACE on the url; the new row gets a fresh id, no price yet, is
        active, and is stamped now. Returns the new id. */
    method AddProduct(productName: string, url: string, thresholdPrice: real, siteType: string,
                      checkInterval: Option<int>) returns (id: int)
      requires Valid()
      modifies this
      ensures Valid()
      ensures id == old(nextProductId) && nextProductId == id + 1
      ensures products == WithoutUrl(old(products), url)
        + [Product(id, productName, url, None, thresholdPrice, siteType, true, clock, clock,
                   IntervalOrDefault(checkInterval))]
      ensures history == old(history) && notifications == old(notifications) && clock == old(clock)
      ensures nextHistoryId == old(nextHistoryId) && nextNotificationId == old(nextNotificationId)
    {
      id := nextProductId;
      WithoutUrlKeyed(products, url, nextProductId);
      products := WithoutUrl(products, url)
        + [Product(id, productName, url, None, thresholdPrice, siteType, true, clock, clock,
                   IntervalOrDefault(checkInterval))];
      nextProductId := nextProductId + 1;
    }

    /** `update_product_price`: the product's current price and last check are set, and one history
        row is appended (for any id: no foreign key is enforced). */
    method UpdateProductPrice(productId: int, newPrice: real)
      requires Valid()
      modifies this
      ensures Valid()
      ensures products == SetPrice(old(products), productId, newPrice, clock)
      ensures history == old(history) + [PricePoint(old(nextHistoryId), productId, newPrice, clock)]
      ensures nextHistoryId == old(nextHistoryId) + 1
      ensures notifications == old(notifications) && clock == old(clock)
      ensures nextProductId == old(nextProductId) && nextNotificationId == old(nextNotificationId)
    {
      SetPriceKeyed(products, productId, newPrice, clock, nextProductId);
      HistoryAppendOrdered(history, PricePoint(nextHistoryId, productId, newPrice, clock), nextHistoryId, clock);
      products := SetPrice(products, productId, newPrice, clock);
      history := history + [PricePoint(nextHistoryId, productId, newPrice, clock)];
      nextHistoryId := nextHistoryId + 1;
    }

    /** `add_notification`: one unsent row, stamped now. Returns its id. */
    method AddNotification(productId: int, oldPrice: real, newPrice: real, thresholdPrice: real)
      returns (id: int)
      requires Valid()
      modifies this
      ensures Valid()
      ensures id == old(nextNotificationId) && nextNotificationId == id + 1
      ensures notifications == old(notifications)
        + [Notification(id, productId, oldPrice, newPrice, thresholdPrice, clock, false)]
      ensures products == old(products) && history == old(history) && clock == old(clock)
      ensures nextProductId == old(nextProductId) && nextHistoryId == old(nextHistoryId)
    {
      id := nextNotificationId;
      NotificationAppendOrdered(notifications, Notification(id, productId, oldPrice, newPrice, thresholdPrice, clock, false),
                                nextNotificationId, clock);
      notifications := notifications + [Notification(id, productId, oldPrice, newPrice, thresholdPrice, clock, false)];
      nextNotificationId := nextNotificationId + 1;
    }

    /** `mark_notification_sent`. */
    method MarkNotificationSent(id: int)
      requires Valid()
      modifies this
      ensures Valid()
      ensures notifications == MarkSent(old(notifications), id)
      ensures products == old(products) && history == old(history) && clock == old(clock)
      ensures nextProductId == old(nextProductId) && nextHistoryId == old(nextHistoryId)
      ensures nextNotificationId == old(nextNotificationId)
    {
      MarkSentOrdered(notifications, id, nextNotificationId, clock);
      notifications := MarkSent(notifications, id);
    }

    /** `deactivate_product`: the row stays, inactive. */
    method DeactivateProduct(id: int)
      requires Valid()
      modifies this
      ensures Valid()
      ensures products == SetInactive(old(products), id)
      ensures history == old(history) && notifications == old(notifications) && clock == old(clock)
      ensures nextProductId == old(nextProductId) && nextHistoryId == old(nextHistoryId)
      ensures nextNotificationId == old(nextNotificationId)
    {
      SetInactiveKeyed(products, id, nextProductId);
      products := SetInactive(products, id);
    }
  }
}
