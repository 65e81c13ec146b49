/** The ranking step of the market hot-items scan (`MarketAPI.fetch_hot_items`,
    market_api.py): the recently updated item ids and the batch reply are
    inputs, the reply is cleaned with a price threshold of 300, every kept
    item that sold something inside the analysis window becomes one row, and
    the rows are ranked by sales speed, then by number of transactions, both
    descending, with a stable sort. */
module HotItems {
  import opened Basics
  import opened StableSort
  import opened MarketData
  import opened Analyzer

  /** Items whose cheapest listing is below this price are dropped. */
  const HotItemsThreshold := 300

  /** One row of the result list. */
  datatype HotItem = HotItem(
    id: Option<int>,
    name: string,
    heat: real,
    sold: nat,
    txCount: nat,
    avg: nat,
    min: int,
    stock: nat)

  datatype ScanError =
    | NoRecentItems          // the recently-updated list came back empty
    | BatchFailed(status: int)  // the batch query failed or returned nothing

  datatype HotResult = Ranked(rows: seq<HotItem>) | Failed(error: ScanError)

  /** Sales speed: units per day for a window of a day or more, the plain
      count of units for a shorter window. */
  function Heat(sold: nat, hours: int): real {
    if hours >= 24 then sold as real / (hours as real / 24.0) else sold as real
  }

  /** `int(sum(prices) / stock)`, or 0 without listings. */
  function AveragePriceOf(listings: seq<Listing>): nat {
    if listings == [] then 0 else SumOf(listings, ListingPrice) / |listings|
  }

  /** The quantity sold inside the window (`calculate_velocity_in_timeframe`). */
  function SoldIn(item: ItemData, hours: int, now: real): nat {
    VelocityInTimeframe(item.history, hours, now).0
  }

  /** The number of sales inside the window, priced or not. */
  function TransactionsIn(item: ItemData, hours: int, now: real): nat {
    |Filter(item.history, After(HoursBefore(now, hours)))|
  }

  predicate Sells(item: ItemData, hours: int, now: real) {
    SoldIn(item, hours, now) > 0
  }

  function RowOf(item: ItemData, hours: int, now: real): HotItem {
    var sold := SoldIn(item, hours, now);
    HotItem(item.itemId, OptIntToString(item.itemId), Heat(sold, hours), sold,
            TransactionsIn(item, hours, now), AveragePriceOf(item.listings),
            item.minPrice.GetOr(0), |item.listings|)
  }

  /** The rows of the items that sold something, in input order. */
  function Rows(items: seq<ItemData>, hours: int, now: real): (r: seq<HotItem>)
    ensures |r| <= |items|
  {
    if items == [] then []
    else
      var last := items[|items| - 1];
      Rows(items[..|items| - 1], hours, now) + (if Sells(last, hours, now) then [RowOf(last, hours, now)] else [])
  }

  /** `a` may stand before `b` in the ranking: the key `(heat, tx_count)` of
      `a` is at least that of `b`, compared lexicographically. */
  function HotterOrEqual(a: HotItem, b: HotItem): bool {
    a.heat > b.heat || (a.heat == b.heat && a.txCount >= b.txCount)
  }

  /** The scan after the two queries: an empty id list and a failed or empty
      batch reply are errors, the latter carrying the HTTP status. */
  function HotItemsScan(itemIds: seq<int>, status: int, reply: seq<ItemData>, hours: int, now: real): HotResult {
    if itemIds == [] then Failed(NoRecentItems)
    else if status != 200 || reply == [] then Failed(BatchFailed(status))
    else Ranked(SortBy(Rows(Cleaned(reply, HotItemsThreshold), hours, now), HotterOrEqual))
  }

  /** The loop over the cleaned items followed by `results.sort`. */
  method ScanHotItems(itemIds: seq<int>, status: int, reply: seq<ItemData>, hours: int, now: real)
    returns (r: HotResult)
    ensures r == HotItemsScan(itemIds, status, reply, hours, now)
  {
    if itemIds == [] {
      return Failed(NoRecentItems);
    }
    if status != 200 || reply == [] {
      return Failed(BatchFailed(status));
    }
    var cleaned := CleanMarketData(reply, HotItemsThreshold);
    var results: seq<HotItem> := [];
    var i := 0;
    while i < |cleaned|
      invariant 0 <= i <= |cleaned|
      invariant results == Rows(cleaned[..i], hours, now)
    {
      RowsSnoc(cleaned, i, hours, now);
      var item := cleaned[i];
      var sold := VelocityInTimeframe(item.history, hours, now).0;
      var heat := Heat(sold, hours);
      i := i + 1;
      if sold == 0 {
        continue;
      }
      var stock := |item.listings|;
      var avg := AveragePriceOf(item.listings);
      var txCount := |Filter(item.history, After(HoursBefore(now, hours)))|;
      results := results + [HotItem(item.itemId, OptIntToString(item.itemId), heat, sold, txCount, avg,
                                    item.minPrice.GetOr(0), stock)];
    }
    assert cleaned[..i] == cleaned;
    var a := ToArray(results);
    SortInPlace(a, HotterOrEqual);
    r := Ranked(a[..]);
  }

  // ---------------------------------------------------------------------
  // Properties.
  // ---------------------------------------------------------------------

  lemma HotterOrEqualIsTotal()
    ensures TotalPreorder(HotterOrEqual)
  {
  }

  /** The scan fails exactly when there are no recent ids, or the batch
      query did not answer 200 with at least one item; then no row is
      produced and a failed batch reports its status. */
  lemma ScanErrors(itemIds: seq<int>, status: int, reply: seq<ItemData>, hours: int, now: real)
    ensures var r := HotItemsScan(itemIds, status, reply, hours, now);
      r.Failed? <==> itemIds == [] || status != 200 || reply == []
    ensures var r := HotItemsScan(itemIds, status, reply, hours, now);
      r.Failed? && itemIds != [] ==> r.error == BatchFailed(status)
  {
  }

  /** Within one scan the window is fixed, so heat orders items exactly as
      the quantity sold does. */
  lemma HeatFollowsSold(sold1: nat, sold2: nat, hours: int)
    ensures Heat(sold1, hours) <= Heat(sold2, hours) <==> sold1 <= sold2
    ensures Heat(sold1, hours) == Heat(sold2, hours) <==> sold1 == sold2
    ensures sold1 > 0 ==> Heat(sold1, hours) > 0.0
  {
    if hours >= 24 {
      var d := hours as real / 24.0;
      assert d > 0.0;
      DivTimes(sold1 as real, d);
      DivTimes(sold2 as real, d);
      ScaleOrder(Heat(sold1, hours), Heat(sold2, hours), d);
    }
  }

  lemma ScaleOrder(x: real, y: real, d: real)
    requires d > 0.0
    ensures x <= y <==> x * d <= y * d
  {
  }

  lemma RowsSnoc(items: seq<ItemData>, i: nat, hours: int, now: real)
    requires i < |items|
    ensures Rows(items[..i + 1], hours, now) ==
              Rows(items[..i], hours, now) + (if Sells(items[i], hours, now) then [RowOf(items[i], hours, now)] else [])
  {
    assert items[..i + 1][..i] == items[..i];
  }

  /** Rows keep the order of the items they come from. */
  lemma {:induction false} RowsAppend(a: seq<ItemData>, b: seq<ItemData>, hours: int, now: real)
    ensures Rows(a + b, hours, now) == Rows(a, hours, now) + Rows(b, hours, now)
    decreases |b|
  {
    if b == [] {
      assert a + b == a;
    } else {
      var front := b[..|b| - 1];
      assert (a + b)[..|a + b| - 1] == a + front;
      RowsAppend(a, front, hours, now);
    }
  }

  /** Every item that sold something has its row. */
  lemma {:induction false} RowsCover(items: seq<ItemData>, hours: int, now: real)
    ensures forall k :: 0 <= k < |items| && Sells(items[k], hours, now) ==> RowOf(items[k], hours, now) in Rows(items, hours, now)
    decreases |items|
  {
    if items != [] {
      var front := items[..|items| - 1];
      RowsCover(front, hours, now);
      assert forall k :: 0 <= k < |front| ==> items[k] == front[k];
    }
  }

  /** Every row is the row of an item that sold something. */
  lemma {:induction false} RowsFrom(items: seq<ItemData>, hours: int, now: real, r: HotItem)
    requires r in Rows(items, hours, now)
    ensures exists k :: 0 <= k < |items| && Sells(items[k], hours, now) && r == RowOf(items[k], hours, now)
    decreases |items|
  {
    var front := items[..|items| - 1];
    if r in Rows(front, hours, now) {
      RowsFrom(front, hours, now, r);
      var k :| 0 <= k < |front| && Sells(front[k], hours, now) && r == RowOf(front[k], hours, now);
      assert items[k] == front[k];
    } else {
      assert Sells(items[|items| - 1], hours, now);
    }
  }

  /** A positive quantity sold means at least one transaction in the window,
      and the average listing price lies between the cheapest and the
      dearest listing. */
  lemma RowFigures(item: ItemData, hours: int, now: real)
    requires Sells(item, hours, now)
    ensures RowOf(item, hours, now).txCount > 0
    ensures RowOf(item, hours, now).heat > 0.0
    ensures item.listings != [] ==>
              MinOf(item.listings, ListingPrice) <= RowOf(item, hours, now).avg <= MaxOf(item.listings, ListingPrice)
  {
    var window := After(HoursBefore(now, hours));
    var recent := Filter(Filter(item.history, HasPrice), window);
    assert item.history != [];
    assert SumOf(recent, SaleQuantity) > 0;
    assert recent != [];
    assert recent[0] in Filter(item.history, window);
    HeatFollowsSold(SoldIn(item, hours, now), SoldIn(item, hours, now), hours);
    if item.listings != [] {
      var ls := item.listings;
      SumOfBounds(ls, ListingPrice, MinOf(ls, ListingPrice), MaxOf(ls, ListingPrice));
      FloorDivBounds(SumOf(ls, ListingPrice), |ls|, MinOf(ls, ListingPrice), MaxOf(ls, ListingPrice));
    }
  }

  /** The result of a successful scan: ranked by heat, then transactions,
      both descending; a permutation of the rows of the cleaned items; every
      row is the row of an item of the reply whose cheapest listing is at
      least 300 and that sold something in the window, and every such item
      has its row. */
  lemma ScanRanked(itemIds: seq<int>, status: int, reply: seq<ItemData>, hours: int, now: real)
    requires HotItemsScan(itemIds, status, reply, hours, now).Ranked?
    ensures var rows := HotItemsScan(itemIds, status, reply, hours, now).rows;
      && (forall i, j :: 0 <= i < j < |rows| ==>
            rows[i].heat > rows[j].heat || (rows[i].heat == rows[j].heat && rows[i].txCount >= rows[j].txCount))
      && multiset(rows) == multiset(Rows(Cleaned(reply, HotItemsThreshold), hours, now))
    ensures var rows := HotItemsScan(itemIds, status, reply, hours, now).rows;
      forall r :: r in rows ==>
        && r.sold > 0 && r.heat > 0.0 && r.txCount > 0 && r.stock > 0
        && exists item :: item in reply && Keeps(item, HotItemsThreshold) && Sells(item, hours, now) && r == RowOf(item, hours, now)
    ensures var rows := HotItemsScan(itemIds, status, reply, hours, now).rows;
      forall item :: item in reply && Keeps(item, HotItemsThreshold) && Sells(item, hours, now) ==> RowOf(item, hours, now) in rows
  {
    var cleaned := Cleaned(reply, HotItemsThreshold);
    var unsorted := Rows(cleaned, hours, now);
    var rows := SortBy(unsorted, HotterOrEqual);
    HotterOrEqualIsTotal();
    SortBySorted(unsorted, HotterOrEqual);
    RowsCover(cleaned, hours, now);
    forall r | r in rows
      ensures && r.sold > 0 && r.heat > 0.0 && r.txCount > 0 && r.stock > 0
              && exists item :: item in reply && Keeps(item, HotItemsThreshold) && Sells(item, hours, now) && r == RowOf(item, hours, now)
    {
      SortByMembers(unsorted, HotterOrEqual, r);
      RowsFrom(cleaned, hours, now, r);
      var k :| 0 <= k < |cleaned| && Sells(cleaned[k], hours, now) && r == RowOf(cleaned[k], hours, now);
      assert cleaned[k] in cleaned;
      RowFigures(cleaned[k], hours, now);
    }
    forall item | item in reply && Keeps(item, HotItemsThreshold) && Sells(item, hours, now)
      ensures RowOf(item, hours, now) in rows
    {
      assert item in cleaned;
      var k :| 0 <= k < |cleaned| && cleaned[k] == item;
      SortByMembers(unsorted, HotterOrEqual, RowOf(item, hours, now));
    }
  }
}
