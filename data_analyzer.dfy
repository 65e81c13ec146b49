/** `DataAnalyzer` (market_api.py): the metrics pipeline over one market
    snapshot, its canonical empty record, the garbage filter over batch
    replies and the sales count of a time window. The current time is a
    parameter `now` in seconds; prices and quantities are whole numbers and
    every derived quantity is an exact `real`. */
module Analyzer {
  import opened Basics
  import opened StableSort
  import opened MarketData
  import opened StackPopularity


  /** The defaults of the settings keys. */
  const DefaultVelocityDays: int := 7
  const DefaultAvgPriceEntries: int := 20
  const DefaultAvgPriceDaysLimit: int := 30
  const DefaultTaxPercent: int := 5
  const DefaultSnipingMinProfit: int := 2000

  /** How many entries the Old and Est tiers average at most. */
  const FallbackEntries: nat := 5
  /** `days_to_sell` when nothing sells. */
  const NeverSells: real := 999.0
  /** How many stack sizes `stack_popularity` reports. */
  const TopStacks: nat := 3
  /** Review times above this are in milliseconds. */
  const MillisecondsAbove: int := 2000000000
  /** Penny-stock sniping: ROI above this percentage with a cost below `PennyCost`. */
  const PennyRoi: real := 200.0
  const PennyCost: nat := 5000

  /** `avg_price_type`: exactly one of the four tiers. */
  datatype PriceTag = Normal | Old | Est | NoneTag

  /** The record `calculate_metrics` returns. */
  datatype Metrics = Metrics(
    velocity: real,
    velocityTx: real,
    avgSalePrice: real,
    avgPriceType: PriceTag,
    minPrice: nat,
    profit: real,
    flipProfit: real,
    roi: real,
    arbitrage: real,
    arbitrageWarning: bool,
    snipingProfit: real,
    snipingCost: nat,
    daysToSell: real,
    stockTotal: nat,
    totalStockRaw: nat,
    stackPopularity: seq<Entry>,
    mergedListings: seq<Listing>,
    mergedHistory: seq<Sale>)

  /** `_empty_metrics`. */
  function EmptyMetrics(): Metrics {
    Metrics(0.0, 0.0, 0.0, NoneTag, 0, 0.0, 0.0, 0.0, 0.0, false, 0.0, 0, NeverSells, 0, 0, [], [], [])
  }

  // ---------------------------------------------------------------------
  // Preparation: flatten, HQ filter, sort.
  // ---------------------------------------------------------------------

  /** The listings the analysis sees before sorting. */
  function InputListings(data: Snapshot, hqOnly: bool): seq<Listing> {
    if hqOnly then Filter(SnapshotListings(data), IsHqListing) else SnapshotListings(data)
  }

  function InputHistory(data: Snapshot, hqOnly: bool): seq<Sale> {
    if hqOnly then Filter(SnapshotHistory(data), IsHqSale) else SnapshotHistory(data)
  }

  /** Listings sort by unit price, cheapest first. */
  function CheaperOrEqual(a: Listing, b: Listing): bool { a.price <= b.price }

  /** Sales sort by timestamp, newest first (`reverse=True`, still stable). */
  function NewerOrEqual(a: Sale, b: Sale): bool { a.timestamp >= b.timestamp }

  function NatLe(a: nat, b: nat): bool { a <= b }

  // ---------------------------------------------------------------------
  // Outlier rejection and velocity.
  // ---------------------------------------------------------------------

  function HasPrice(h: Sale): bool { h.price > 0 }

  function SalePrices(hs: seq<Sale>): (r: seq<nat>)
    ensures |r| == |hs| && forall i :: 0 <= i < |hs| ==> r[i] == hs[i].price
  {
    seq(|hs|, i requires 0 <= i < |hs| => hs[i].price)
  }

  /** `sorted(prices)[len(prices) // 2]`. */
  function Median(prices: seq<nat>): nat
    requires prices != []
  {
    SortBy(prices, NatLe)[|prices| / 2]
  }

  /** Within a tenth and ten times the median, both ends included. */
  function WithinBand(median: nat): Sale -> bool {
    (h: Sale) => 0.1 * median as real <= h.price as real <= 10.0 * median as real
  }

  /** `valid_history`: the priced sales, without outliers around their median. */
  function ValidHistory(history: seq<Sale>): seq<Sale> {
    var priced := Filter(history, HasPrice);
    if priced == [] then [] else Filter(priced, WithinBand(Median(SalePrices(priced))))
  }

  /** The instant `days` days (of 86400 seconds) before `now`. */
  function DaysBefore(now: real, days: int): real {
    now - (days * 86400) as real
  }

  /** The instant `hours` hours (of 3600 seconds) before `now`. */
  function HoursBefore(now: real, hours: int): real {
    now - (hours * 3600) as real
  }

  function After(cutoff: real): Sale -> bool {
    (h: Sale) => h.timestamp as real > cutoff
  }

  /** `max(1, velocity_days)`. */
  function VelocityDays(cfg: Config): (d: int)
    ensures d >= 1
    ensures cfg.velocityDays.None? ==> d == DefaultVelocityDays
  {
    Max(1, cfg.velocityDays.GetOr(DefaultVelocityDays))
  }

  /** The sales strictly newer than `days` days before `now`. */
  function RecentSales(valid: seq<Sale>, days: int, now: real): seq<Sale> {
    Filter(valid, After(DaysBefore(now, days)))
  }

  /** `(velocity, velocity_tx)`: quantity and transactions per day of the
      recent sales. */
  function Velocity(valid: seq<Sale>, days: int, now: real): (real, real)
    requires days >= 1
  {
    var recent := RecentSales(valid, days, now);
    (PerDay(SumOf(recent, SaleQuantity), days), PerDay(|recent|, days))
  }

  /** A count spread evenly over `days` days. */
  function PerDay(x: nat, days: int): real
    requires days >= 1
  {
    x as real / days as real
  }

  // ---------------------------------------------------------------------
  // Average price, with its three fallbacks.
  // ---------------------------------------------------------------------

  /** The Normal tier's candidates: the valid sales inside the day limit,
      cut to `avg_price_entries` (Python slicing, so a negative setting
      counts from the end). */
  function NormalCandidates(valid: seq<Sale>, cfg: Config, now: real): seq<Sale> {
    var limit := cfg.avgPriceDaysLimit.GetOr(DefaultAvgPriceDaysLimit);
    Prefix(Filter(valid, After(DaysBefore(now, limit))), cfg.avgPriceEntries.GetOr(DefaultAvgPriceEntries))
  }

  /** The first tier that has data gives the average and its tag. */
  function AveragePrice(valid: seq<Sale>, listings: seq<Listing>, cfg: Config, now: real): (real, PriceTag) {
    var normal := NormalCandidates(valid, cfg, now);
    if normal != [] then (Mean(normal, SalePrice), Normal)
    else if valid != [] then (Mean(Take(valid, FallbackEntries), SalePrice), Old)
    else if listings != [] then (Mean(Take(listings, FallbackEntries), ListingPrice), Est)
    else (0.0, NoneTag)
  }

  // ---------------------------------------------------------------------
  // Effective stock.
  // ---------------------------------------------------------------------

  /** `listings[0]['pricePerUnit']`, 0 without listings. */
  function MinPrice(listings: seq<Listing>): nat {
    if listings == [] then 0 else listings[0].price
  }

  function PricedAtMost(limit: real): Listing -> bool {
    (l: Listing) => l.price as real <= limit
  }

  /** The listings priced at most 1.5 times the minimum; the rest are
      "zombie" listings nobody will buy. */
  function EffectiveListings(listings: seq<Listing>): seq<Listing> {
    Filter(listings, PricedAtMost(MinPrice(listings) as real * 1.5))
  }

  function EffectiveStock(listings: seq<Listing>): nat {
    SumOf(EffectiveListings(listings), ListingQuantity)
  }

  function DaysToSell(stock: nat, velocity: real): real {
    if velocity > 0.0 then stock as real / velocity else NeverSells
  }

  // ---------------------------------------------------------------------
  // Cross-world arbitrage.
  // ---------------------------------------------------------------------

  /** An entry of `world_min_prices`: a world, its cheapest price so far and
      that listing's review time. */
  datatype WorldMin = WorldMin(world: string, price: nat, time: int)

  /** `worldName`, falling back to `str(worldID)`. */
  function WorldKey(l: Listing): string {
    match l.worldName
    case Some(name) => name
    case None => OptIntToString(l.worldId)
  }

  function IndexOfWorld(ws: seq<WorldMin>, world: string): (i: nat)
    ensures i <= |ws|
    ensures i < |ws| ==> ws[i].world == world
    ensures forall j :: 0 <= j < i ==> ws[j].world != world
  {
    if ws == [] then 0
    else if ws[0].world == world then 0
    else 1 + IndexOfWorld(ws[1..], world)
  }

  /** One step of the `world_min_prices` loop: a new world is appended, a
      known one is replaced only by a strictly cheaper listing. */
  function AddListing(ws: seq<WorldMin>, l: Listing): seq<WorldMin> {
    var i := IndexOfWorld(ws, WorldKey(l));
    if i == |ws| then ws + [WorldMin(WorldKey(l), l.price, ReviewTime(l))]
    else if l.price < ws[i].price then ws[i := WorldMin(WorldKey(l), l.price, ReviewTime(l))]
    else ws
  }

  /** `world_min_prices` after the loop over `listings`, in insertion order. */
  function WorldMinima(listings: seq<Listing>): seq<WorldMin> {
    if listings == [] then []
    else AddListing(WorldMinima(listings[..|listings| - 1]), listings[|listings| - 1])
  }

  /** `min(world_min_prices.values(), key=price)`: the first cheapest entry. */
  function CheapestWorld(ws: seq<WorldMin>): (w: WorldMin)
    requires ws != []
    ensures w in ws
    ensures forall i :: 0 <= i < |ws| ==> w.price <= ws[i].price
    ensures exists i :: 0 <= i < |ws| && ws[i] == w && forall j :: 0 <= j < i ==> w.price < ws[j].price
  {
    if |ws| == 1 then ws[0]
    else
      var best := CheapestWorld(ws[..|ws| - 1]);
      if ws[|ws| - 1].price < best.price then ws[|ws| - 1] else best
  }

  /** `max(v['price'] for v in world_min_prices.values())`. */
  function HighestMinimum(ws: seq<WorldMin>): (p: nat)
    requires ws != []
    ensures exists i :: 0 <= i < |ws| && p == ws[i].price
    ensures forall i :: 0 <= i < |ws| ==> ws[i].price <= p
  {
    if |ws| == 1 then ws[0].price
    else
      var rest := HighestMinimum(ws[..|ws| - 1]);
      if ws[|ws| - 1].price > rest then ws[|ws| - 1].price else rest
  }

  /** Staleness threshold in seconds: fast sellers go stale sooner. */
  function WarningThreshold(velocity: real): int {
    if velocity > 20.0 then 1800 else if velocity < 1.0 then 21600 else 7200
  }

  /** A review time in seconds; one above 2e9 is in milliseconds. */
  function UploadSeconds(t: int): real {
    if t > MillisecondsAbove then t as real / 1000.0 else t as real
  }

  /** What a sale at `price` brings in once the market tax rate `tax` is
      deducted. */
  function AfterTax(price: real, tax: real): real {
    price * (1.0 - tax)
  }

  /** `(arbitrage, arbitrage_warning)` from the per-world minima. */
  function Arbitrage(ws: seq<WorldMin>, velocity: real, tax: real, now: real): (real, bool) {
    if |ws| <= 1 then (0.0, false)
    else
      var cheapest := CheapestWorld(ws);
      (AfterTax(HighestMinimum(ws) as real, tax) - cheapest.price as real,
       now - UploadSeconds(cheapest.time) > WarningThreshold(velocity) as real)
  }

  // ---------------------------------------------------------------------
  // Sniping.
  // ---------------------------------------------------------------------

  /** `(sniping_profit, sniping_cost)`: buying the cheapest stack to resell
      at the second price. */
  function Sniping(listings: seq<Listing>, avg: real, tax: real, threshold: int): (real, nat) {
    if |listings| < 2 then (0.0, 0)
    else
      var p1, p2, q1 := listings[0].price, listings[1].price, listings[0].quantity;
      var cost := p1 * q1;
      if avg > 0.0 && p2 as real > avg * 3.0 then (0.0, 0)
      else
        var unit := AfterTax(p2 as real, tax) - p1 as real;
        var total := unit * q1 as real;
        var roi := if p1 > 0 then unit / p1 as real * 100.0 else 0.0;
        if total >= threshold as real || (roi > PennyRoi && cost < PennyCost) then (total, cost)
        else (0.0, 0)
  }

  // ---------------------------------------------------------------------
  // The whole pipeline.
  // ---------------------------------------------------------------------

  function TaxRate(cfg: Config): real {
    cfg.marketTaxRate.GetOr(DefaultTaxPercent) as real / 100.0
  }

  /** `(profit, flip_profit, roi)`: the resale value of the cheapest unit
      after tax, the flip profit against the average price, and the flip
      profit as a percentage of the cheapest price (0 without one). */
  function Profits(minPrice: nat, avg: real, tax: real): (real, real, real) {
    var flip := AfterTax(avg, tax) - minPrice as real;
    (AfterTax(minPrice as real, tax), flip, if minPrice > 0 then flip / minPrice as real * 100.0 else 0.0)
  }

  function SaleQuantities(hs: seq<Sale>): (r: seq<nat>)
    ensures |r| == |hs| && forall i :: 0 <= i < |hs| ==> r[i] == hs[i].quantity
  {
    seq(|hs|, i requires 0 <= i < |hs| => hs[i].quantity)
  }

  /** The metrics of non-empty, sorted lists, given the per-world minima of
      the listings. */
  function Assemble(listings: seq<Listing>, history: seq<Sale>, cfg: Config, now: real, ws: seq<WorldMin>): Metrics {
    var valid := ValidHistory(history);
    var velocity := Velocity(valid, VelocityDays(cfg), now);
    var average := AveragePrice(valid, listings, cfg, now);
    var tax := TaxRate(cfg);
    var profits := Profits(MinPrice(listings), average.0, tax);
    var stock := EffectiveStock(listings);
    var arbitrage := Arbitrage(ws, velocity.0, tax, now);
    var sniping := Sniping(listings, average.0, tax, cfg.snipingMinProfit.GetOr(DefaultSnipingMinProfit));
    Metrics(
      velocity.0, velocity.1,
      average.0, average.1,
      MinPrice(listings), profits.0, profits.1, profits.2,
      arbitrage.0, arbitrage.1,
      sniping.0, sniping.1,
      DaysToSell(stock, velocity.0), stock, SumOf(listings, ListingQuantity),
      MostCommon(SaleQuantities(valid), TopStacks),
      listings, history)
  }

  /** `calculate_metrics(data, config, hq_only)` at time `now`. */
  function Analyze(data: Snapshot, cfg: Config, hqOnly: bool, now: real): Metrics {
    var listings := SortBy(InputListings(data, hqOnly), CheaperOrEqual);
    var history := SortBy(InputHistory(data, hqOnly), NewerOrEqual);
    if listings == [] && history == [] then EmptyMetrics()
    else Assemble(listings, history, cfg, now, WorldMinima(listings))
  }

  /** Copies a list into a fresh array. */
  method ToArray<T>(s: seq<T>) returns (a: array<T>)
    ensures fresh(a) && a[..] == s
  {
    a := new T[|s|](i requires 0 <= i < |s| => s[i]);
  }

  /** The `world_min_prices` loop. */
  method CollectWorldMinima(listings: seq<Listing>) returns (ws: seq<WorldMin>)
    ensures ws == WorldMinima(listings)
  {
    ws := [];
    var k := 0;
    while k < |listings|
      invariant 0 <= k <= |listings|
      invariant ws == WorldMinima(listings[..k])
    {
      var l := listings[k];
      assert listings[..k + 1][..k] == listings[..k];
      var key := WorldKey(l);
      var i := IndexOfWorld(ws, key);
      if i == |ws| {
        ws := ws + [WorldMin(key, l.price, ReviewTime(l))];
      } else if l.price < ws[i].price {
        ws := ws[i := WorldMin(key, l.price, ReviewTime(l))];
      }
      k := k + 1;
    }
    assert listings[..k] == listings;
  }

  /** `calculate_metrics`: the lists are sorted in place (cheapest listing
      first, newest sale first, both stable), an empty pair gives the empty
      record, and the per-world minima are gathered in a loop. */
  method CalculateMetrics(data: Snapshot, cfg: Config, hqOnly: bool, now: real) returns (m: Metrics)
    ensures m == Analyze(data, cfg, hqOnly, now)
  {
    var listingArray := ToArray(InputListings(data, hqOnly));
    var historyArray := ToArray(InputHistory(data, hqOnly));
    SortInPlace(listingArray, CheaperOrEqual);
    SortInPlace(historyArray, NewerOrEqual);
    var listings, history := listingArray[..], historyArray[..];
    if history == [] && listings == [] {
      return EmptyMetrics();
    }
    var ws := CollectWorldMinima(listings);
    m := Assemble(listings, history, cfg, now, ws);
  }

  // ---------------------------------------------------------------------
  // The batch-reply filter and the windowed sales count.
  // ---------------------------------------------------------------------

  /** An item survives `clean_market_data` when it has listings and its
      first listing is priced at least at the threshold. */
  predicate Keeps(item: ItemData, threshold: int) {
    item.listings != [] && item.listings[0].price >= threshold
  }

  function KeepsAt(threshold: int): ItemData -> bool {
    (item: ItemData) => Keeps(item, threshold)
  }

  /** The kept items in their input order. */
  function Cleaned(items: seq<ItemData>, threshold: int): seq<ItemData> {
    Filter(items, KeepsAt(threshold))
  }

  /** `clean_market_data` (the second definition, which shadows the first). */
  method CleanMarketData(items: seq<ItemData>, threshold: int) returns (cleaned: seq<ItemData>)
    ensures cleaned == Cleaned(items, threshold)
  {
    cleaned := [];
    var i := 0;
    while i < |items|
      invariant 0 <= i <= |items|
      invariant cleaned == Cleaned(items[..i], threshold)
    {
      assert items[..i + 1][..i] == items[..i];
      var item := items[i];
      i := i + 1;
      if item.listings == [] {
        continue;
      }
      if item.listings[0].price < threshold {
        continue;
      }
      cleaned := cleaned + [item];
    }
    assert items[..i] == items;
  }

  /** `calculate_velocity_in_timeframe(history, hours)`: the quantity sold by
      priced sales strictly newer than `hours` hours before `now`; the second
      result (`is_unstable`) is always false. */
  function VelocityInTimeframe(history: seq<Sale>, hours: int, now: real): (nat, bool) {
    if history == [] then (0, false)
    else (SumOf(Filter(Filter(history, HasPrice), After(HoursBefore(now, hours))), SaleQuantity), false)
  }

  // ---------------------------------------------------------------------
  // Properties.
  // ---------------------------------------------------------------------

  lemma SortOrdersAreTotal()
    ensures TotalPreorder(CheaperOrEqual) && TotalPreorder(NewerOrEqual) && TotalPreorder(NatLe)
  {
  }

  /** The empty record comes back exactly when, after the HQ filter, there
      is neither a listing nor a sale. */
  lemma EmptyMetricsIffNoData(data: Snapshot, cfg: Config, hqOnly: bool, now: real)
    ensures Analyze(data, cfg, hqOnly, now) == EmptyMetrics() <==>
              InputListings(data, hqOnly) == [] && InputHistory(data, hqOnly) == []
  {
  }

  /** The merged lists are the filtered inputs reordered: listings cheapest
      first, sales newest first; with `hqOnly` only HQ records remain. */
  lemma MergedListsSorted(data: Snapshot, cfg: Config, hqOnly: bool, now: real)
    ensures var m := Analyze(data, cfg, hqOnly, now);
      && Sorted(m.mergedListings, CheaperOrEqual)
      && Sorted(m.mergedHistory, NewerOrEqual)
      && multiset(m.mergedListings) == multiset(InputListings(data, hqOnly))
      && multiset(m.mergedHistory) == multiset(InputHistory(data, hqOnly))
      && (hqOnly ==> (forall l :: l in m.mergedListings ==> l.hq) && (forall h :: h in m.mergedHistory ==> h.hq))
  {
    var ls, hs := InputListings(data, hqOnly), InputHistory(data, hqOnly);
    SortOrdersAreTotal();
    SortBySorted(ls, CheaperOrEqual);
    SortBySorted(hs, NewerOrEqual);
    var m := Analyze(data, cfg, hqOnly, now);
    forall l | l in m.mergedListings ensures l in ls {
      SortByMembers(ls, CheaperOrEqual, l);
    }
    forall h | h in m.mergedHistory ensures h in hs {
      SortByMembers(hs, NewerOrEqual, h);
    }
  }

  /** The median is one of the prices, no price sorted before it is larger
      and none sorted after it is smaller. */
  lemma MedianIsMiddle(prices: seq<nat>)
    requires prices != []
    ensures var sorted := SortBy(prices, NatLe);
      && Median(prices) in prices
      && (forall i :: 0 <= i < |prices| / 2 ==> sorted[i] <= Median(prices))
      && (forall i :: |prices| / 2 < i < |prices| ==> Median(prices) <= sorted[i])
  {
    SortOrdersAreTotal();
    SortBySorted(prices, NatLe);
    SortByMembers(prices, NatLe, Median(prices));
  }

  /** The median of priced sales is itself a positive price. */
  lemma MedianPositive(priced: seq<Sale>)
    requires priced != [] && forall i :: 0 <= i < |priced| ==> priced[i].price > 0
    ensures Median(SalePrices(priced)) > 0
  {
    var prices := SalePrices(priced);
    MedianIsMiddle(prices);
    var m := Median(prices);
    var i :| 0 <= i < |prices| && prices[i] == m;
  }

  /** A sale survives outlier rejection exactly when it is priced and lies
      within a tenth and ten times the median of the priced sales. */
  lemma ValidHistoryMembers(history: seq<Sale>, h: Sale)
    ensures var priced := Filter(history, HasPrice);
      && (priced == [] ==> ValidHistory(history) == [])
      && (priced != [] ==>
            var median := Median(SalePrices(priced));
            && median > 0
            && (h in ValidHistory(history) <==>
                  h in history && h.price > 0 && 0.1 * median as real <= h.price as real <= 10.0 * median as real))
  {
    var priced := Filter(history, HasPrice);
    if priced != [] {
      MedianPositive(priced);
      var median := Median(SalePrices(priced));
      assert ValidHistory(history) == Filter(priced, WithinBand(median));
      assert h in Filter(priced, WithinBand(median)) <==> h in priced && WithinBand(median)(h);
    }
  }

  /** Lengthening the velocity window never lowers the quantity counted. */
  lemma RecentSalesMonotone(valid: seq<Sale>, days1: int, days2: int, now: real)
    requires days1 <= days2
    ensures SumOf(RecentSales(valid, days1, now), SaleQuantity) <= SumOf(RecentSales(valid, days2, now), SaleQuantity)
  {
    var c1, c2 := DaysBefore(now, days1), DaysBefore(now, days2);
    forall h: Sale ensures After(c1)(h) ==> After(c2)(h) {
    }
    SumOfFilterMonotone(valid, After(c1), After(c2), SaleQuantity);
  }

  lemma DivTimes(x: real, d: real)
    requires d > 0.0
    ensures (x / d) * d == x
    ensures x >= 0.0 ==> x / d >= 0.0
  {
  }

  /** The recent sales are exactly the valid sales strictly inside the
      window of `days` days before `now`. */
  lemma RecentSalesMembers(valid: seq<Sale>, days: int, now: real, h: Sale)
    ensures h in RecentSales(valid, days, now) <==> h in valid && h.timestamp as real > DaysBefore(now, days)
    ensures |RecentSales(valid, days, now)| <= |valid|
  {
  }

  /** `velocity` is the quantity of the recent sales per day of the window,
      and is never negative. */
  lemma VelocityPerDay(valid: seq<Sale>, days: int, now: real)
    requires days >= 1
    ensures Velocity(valid, days, now).0 * days as real == SumOf(RecentSales(valid, days, now), SaleQuantity) as real
    ensures Velocity(valid, days, now).0 >= 0.0
  {
    var q := SumOf(RecentSales(valid, days, now), SaleQuantity);
    PerDayTimes(q, days);
    calc {
      Velocity(valid, days, now).0 * days as real;
      PerDay(q, days) * days as real;
      q as real;
    }
  }

  /** `velocity_tx` is the number of recent sales per day of the window, and
      is never negative. */
  lemma TransactionsPerDay(valid: seq<Sale>, days: int, now: real)
    requires days >= 1
    ensures Velocity(valid, days, now).1 * days as real == |RecentSales(valid, days, now)| as real
    ensures Velocity(valid, days, now).1 >= 0.0
  {
    var n := |RecentSales(valid, days, now)|;
    PerDayTimes(n, days);
    calc {
      Velocity(valid, days, now).1 * days as real;
      PerDay(n, days) * days as real;
      n as real;
    }
  }

  lemma PerDayTimes(x: nat, days: int)
    requires days >= 1
    ensures PerDay(x, days) * days as real == x as real && PerDay(x, days) >= 0.0
  {
    DivTimes(x as real, days as real);
  }

  /** The average-price tag names the first tier with data, and the average
      lies between the least and greatest price of the entries it averages. */
  lemma AveragePriceTiers(valid: seq<Sale>, listings: seq<Listing>, cfg: Config, now: real)
    requires forall i :: 0 <= i < |valid| ==> valid[i].price > 0
    ensures var (avg, tag) := AveragePrice(valid, listings, cfg, now);
      var normal := NormalCandidates(valid, cfg, now);
      && (tag == Normal <==> normal != [])
      && (tag == Old <==> normal == [] && valid != [])
      && (tag == Est <==> normal == [] && valid == [] && listings != [])
      && (tag == NoneTag <==> normal == [] && valid == [] && listings == [])
      && (tag == NoneTag ==> avg == 0.0)
      && (tag == Normal ==> 0.0 < MinOf(normal, SalePrice) as real <= avg <= MaxOf(normal, SalePrice) as real)
      && (tag == Old ==> 0.0 < MinOf(Take(valid, FallbackEntries), SalePrice) as real <= avg
                         <= MaxOf(Take(valid, FallbackEntries), SalePrice) as real)
      && (tag == Est ==> MinOf(Take(listings, FallbackEntries), ListingPrice) as real <= avg
                         <= MaxOf(Take(listings, FallbackEntries), ListingPrice) as real)
  {
    var normal := NormalCandidates(valid, cfg, now);
    if normal != [] {
      var limit := cfg.avgPriceDaysLimit.GetOr(DefaultAvgPriceDaysLimit);
      var inside := Filter(valid, After(DaysBefore(now, limit)));
      assert forall i :: 0 <= i < |normal| ==> normal[i] in inside;
      MeanBounds(normal, SalePrice, MinOf(normal, SalePrice), MaxOf(normal, SalePrice));
    } else if valid != [] {
      var oldest := Take(valid, FallbackEntries);
      MeanBounds(oldest, SalePrice, MinOf(oldest, SalePrice), MaxOf(oldest, SalePrice));
    } else if listings != [] {
      var est := Take(listings, FallbackEntries);
      MeanBounds(est, ListingPrice, MinOf(est, ListingPrice), MaxOf(est, ListingPrice));
    }
  }

  /** The Normal tier averages valid sales strictly inside the day limit,
      at most `avg_price_entries` of them when that setting is not negative. */
  lemma NormalCandidatesInWindow(valid: seq<Sale>, cfg: Config, now: real)
    ensures var normal := NormalCandidates(valid, cfg, now);
      var limit := cfg.avgPriceDaysLimit.GetOr(DefaultAvgPriceDaysLimit);
      var entries := cfg.avgPriceEntries.GetOr(DefaultAvgPriceEntries);
      && (entries >= 0 ==> |normal| <= entries)
      && forall h :: h in normal ==> h in valid && h.timestamp as real > DaysBefore(now, limit)
    ensures var normal := NormalCandidates(valid, cfg, now);
      var cutoff := DaysBefore(now, cfg.avgPriceDaysLimit.GetOr(DefaultAvgPriceDaysLimit));
      var entries := cfg.avgPriceEntries.GetOr(DefaultAvgPriceEntries);
      && (entries >= 0 ==>
            (normal != [] <==> entries > 0 && exists h :: h in valid && h.timestamp as real > cutoff))
      && (entries < 0 ==> (normal != [] <==> |Filter(valid, After(cutoff))| > -entries))
  {
    var normal := NormalCandidates(valid, cfg, now);
    var limit := cfg.avgPriceDaysLimit.GetOr(DefaultAvgPriceDaysLimit);
    var inside := Filter(valid, After(DaysBefore(now, limit)));
    assert forall h :: h in normal ==> h in inside;
    if inside != [] {
      assert inside[0] in inside;
    }
  }

  /** The Normal tier averages the first `avg_price_entries` in-window sales:
      on newest-first sales, no in-window sale left out is newer than any
      sale that is averaged. */
  lemma NormalCandidatesNewest(valid: seq<Sale>, cfg: Config, now: real)
    requires Sorted(valid, NewerOrEqual)
    ensures var normal := NormalCandidates(valid, cfg, now);
      var inside := Filter(valid, After(DaysBefore(now, cfg.avgPriceDaysLimit.GetOr(DefaultAvgPriceDaysLimit))));
      && |normal| <= |inside| && normal == inside[..|normal|]
      && forall i, j :: 0 <= j < |normal| <= i < |inside| ==> inside[i].timestamp <= normal[j].timestamp
  {
    var inside := Filter(valid, After(DaysBefore(now, cfg.avgPriceDaysLimit.GetOr(DefaultAvgPriceDaysLimit))));
    FilterKeepsSorted(valid, After(DaysBefore(now, cfg.avgPriceDaysLimit.GetOr(DefaultAvgPriceDaysLimit))), NewerOrEqual);
    var normal := NormalCandidates(valid, cfg, now);
    forall i, j | 0 <= j < |normal| <= i < |inside| ensures inside[i].timestamp <= normal[j].timestamp {
      assert normal[j] == inside[j];
      assert NewerOrEqual(inside[j], inside[i]);
    }
  }

  /** A listing counts towards the effective stock exactly when it is priced
      at most 1.5 times the first listing's price. */
  lemma EffectiveListingsMembers(listings: seq<Listing>, l: Listing)
    ensures l in EffectiveListings(listings) <==> l in listings && l.price as real <= 1.5 * MinPrice(listings) as real
  {
    assert EffectiveListings(listings) == Filter(listings, PricedAtMost(MinPrice(listings) as real * 1.5));
  }

  /** The effective stock never exceeds the raw stock. */
  lemma EffectiveStockAtMostRaw(listings: seq<Listing>)
    ensures EffectiveStock(listings) <= SumOf(listings, ListingQuantity)
  {
    SumOfFilterLe(listings, PricedAtMost(MinPrice(listings) as real * 1.5), ListingQuantity);
  }

  /** On cheapest-first listings the first price is the lowest, so the
      cheapest stack always counts towards the effective stock. */
  lemma EffectiveStockHasCheapest(listings: seq<Listing>)
    requires Sorted(listings, CheaperOrEqual)
    ensures forall l :: l in listings ==> MinPrice(listings) <= l.price
    ensures listings != [] ==> listings[0] in EffectiveListings(listings)
  {
    forall l | l in listings ensures MinPrice(listings) <= l.price {
      var i :| 0 <= i < |listings| && listings[i] == l;
      if i > 0 {
        assert CheaperOrEqual(listings[0], listings[i]);
      }
    }
    if listings != [] {
      EffectiveListingsMembers(listings, listings[0]);
    }
  }

  /** `days_to_sell` is the effective stock over the velocity when anything
      sells, and 999 otherwise. */
  lemma DaysToSellSpec(stock: nat, velocity: real)
    requires velocity >= 0.0
    ensures velocity > 0.0 ==> DaysToSell(stock, velocity) * velocity == stock as real
    ensures velocity == 0.0 ==> DaysToSell(stock, velocity) == NeverSells
  {
    if velocity > 0.0 {
      DivTimes(stock as real, velocity);
    }
  }

  /** The ROI is the flip profit as a percentage of the cheapest price. */
  lemma ProfitFigures(minPrice: nat, avg: real, tax: real)
    ensures var (profit, flip, roi) := Profits(minPrice, avg, tax);
      && profit + minPrice as real * tax == minPrice as real
      && flip + minPrice as real == AfterTax(avg, tax)
      && (minPrice > 0 ==> roi * minPrice as real == flip * 100.0)
      && (minPrice == 0 ==> roi == 0.0)
  {
    var flip := AfterTax(avg, tax) - minPrice as real;
    if minPrice > 0 {
      DivTimes(flip, minPrice as real);
    }
  }

  predicate DistinctWorlds(ws: seq<WorldMin>) {
    forall i, j :: 0 <= i < j < |ws| ==> ws[i].world != ws[j].world
  }

  /** `w` holds, for its world, the lowest price among `listings` and the
      review time of the first listing at that price. */
  ghost predicate FirstCheapest(listings: seq<Listing>, w: WorldMin) {
    && (forall j :: 0 <= j < |listings| && WorldKey(listings[j]) == w.world ==> w.price <= listings[j].price)
    && exists k :: && 0 <= k < |listings|
                   && WorldKey(listings[k]) == w.world
                   && listings[k].price == w.price
                   && ReviewTime(listings[k]) == w.time
                   && forall j :: 0 <= j < k && WorldKey(listings[j]) == w.world ==> w.price < listings[j].price
  }

  /** An entry stays right when a listing of another world is appended. */
  lemma FirstCheapestOtherWorld(front: seq<Listing>, l: Listing, w: WorldMin)
    requires FirstCheapest(front, w) && WorldKey(l) != w.world
    ensures FirstCheapest(front + [l], w)
  {
    var all := front + [l];
    var k :| && 0 <= k < |front| && WorldKey(front[k]) == w.world && front[k].price == w.price
             && ReviewTime(front[k]) == w.time
             && forall j :: 0 <= j < k && WorldKey(front[j]) == w.world ==> w.price < front[j].price;
    assert all[k] == front[k];
    assert forall j :: 0 <= j < |front| ==> all[j] == front[j];
  }

  /** An entry stays right when a listing of its world that is not cheaper
      is appended. */
  lemma FirstCheapestNotCheaper(front: seq<Listing>, l: Listing, w: WorldMin)
    requires FirstCheapest(front, w) && WorldKey(l) == w.world && w.price <= l.price
    ensures FirstCheapest(front + [l], w)
  {
    var all := front + [l];
    var k :| && 0 <= k < |front| && WorldKey(front[k]) == w.world && front[k].price == w.price
             && ReviewTime(front[k]) == w.time
             && forall j :: 0 <= j < k && WorldKey(front[j]) == w.world ==> w.price < front[j].price;
    assert all[k] == front[k];
    assert forall j :: 0 <= j < |front| ==> all[j] == front[j];
  }

  /** The appended listing is the first cheapest of its world when every
      earlier listing of that world is dearer. */
  lemma FirstCheapestLast(front: seq<Listing>, l: Listing)
    requires forall j :: 0 <= j < |front| && WorldKey(front[j]) == WorldKey(l) ==> l.price < front[j].price
    ensures FirstCheapest(front + [l], WorldMin(WorldKey(l), l.price, ReviewTime(l)))
  {
    var all := front + [l];
    assert forall j :: 0 <= j < |front| ==> all[j] == front[j];
    assert all[|front|] == l;
  }

  /** Every listing's world has an entry. */
  ghost predicate CoversWorlds(listings: seq<Listing>, ws: seq<WorldMin>) {
    forall k :: 0 <= k < |listings| ==> exists i :: 0 <= i < |ws| && ws[i].world == WorldKey(listings[k])
  }

  /** What `world_min_prices` holds after a prefix of the loop. */
  ghost predicate MinimaOf(listings: seq<Listing>, ws: seq<WorldMin>) {
    && DistinctWorlds(ws)
    && CoversWorlds(listings, ws)
    && (forall i :: 0 <= i < |ws| ==> FirstCheapest(listings, ws[i]))
  }

  /** The loop step keeps distinct worlds and covers the new listing's world. */
  lemma AddListingCovers(front: seq<Listing>, ws: seq<WorldMin>, l: Listing)
    requires DistinctWorlds(ws) && CoversWorlds(front, ws)
    ensures DistinctWorlds(AddListing(ws, l)) && CoversWorlds(front + [l], AddListing(ws, l))
  {
    var all := front + [l];
    var ws' := AddListing(ws, l);
    var i := IndexOfWorld(ws, WorldKey(l));
    assert forall e :: 0 <= e < |ws| ==> ws'[e].world == ws[e].world;
    forall k | 0 <= k < |all| ensures exists e :: 0 <= e < |ws'| && ws'[e].world == WorldKey(all[k]) {
      if k < |front| {
        assert all[k] == front[k];
        var e :| 0 <= e < |ws| && ws[e].world == WorldKey(front[k]);
        assert ws'[e].world == ws[e].world;
      } else if i == |ws| {
        assert ws'[|ws|].world == WorldKey(l);
      } else {
        assert ws'[i].world == WorldKey(l);
      }
    }
  }

  /** The loop step for a world seen for the first time. */
  lemma AddNewWorld(front: seq<Listing>, ws: seq<WorldMin>, l: Listing)
    requires MinimaOf(front, ws) && IndexOfWorld(ws, WorldKey(l)) == |ws|
    ensures forall e :: 0 <= e < |AddListing(ws, l)| ==> FirstCheapest(front + [l], AddListing(ws, l)[e])
  {
    var key := WorldKey(l);
    forall j | 0 <= j < |front| ensures WorldKey(front[j]) != key {
      var e :| 0 <= e < |ws| && ws[e].world == WorldKey(front[j]);
    }
    FirstCheapestLast(front, l);
    forall e | 0 <= e < |ws| ensures FirstCheapest(front + [l], ws[e]) {
      FirstCheapestOtherWorld(front, l, ws[e]);
    }
  }

  /** The loop step for a strictly cheaper listing of a known world. */
  lemma AddCheaper(front: seq<Listing>, ws: seq<WorldMin>, l: Listing)
    requires DistinctWorlds(ws) && forall e :: 0 <= e < |ws| ==> FirstCheapest(front, ws[e])
    requires IndexOfWorld(ws, WorldKey(l)) < |ws| && l.price < ws[IndexOfWorld(ws, WorldKey(l))].price
    ensures forall e :: 0 <= e < |AddListing(ws, l)| ==> FirstCheapest(front + [l], AddListing(ws, l)[e])
  {
    var key := WorldKey(l);
    var i := IndexOfWorld(ws, key);
    var w := WorldMin(key, l.price, ReviewTime(l));
    assert AddListing(ws, l) == ws[i := w];
    assert FirstCheapest(front, ws[i]);
    forall j | 0 <= j < |front| && WorldKey(front[j]) == key ensures l.price < front[j].price {
    }
    FirstCheapestLast(front, l);
    forall e | 0 <= e < |ws| && e != i ensures FirstCheapest(front + [l], ws[e]) {
      FirstCheapestOtherWorld(front, l, ws[e]);
    }
  }

  /** The loop step for a listing of a known world that is not cheaper. */
  lemma AddNotCheaper(front: seq<Listing>, ws: seq<WorldMin>, l: Listing)
    requires DistinctWorlds(ws) && forall e :: 0 <= e < |ws| ==> FirstCheapest(front, ws[e])
    requires IndexOfWorld(ws, WorldKey(l)) < |ws| && l.price >= ws[IndexOfWorld(ws, WorldKey(l))].price
    ensures forall e :: 0 <= e < |AddListing(ws, l)| ==> FirstCheapest(front + [l], AddListing(ws, l)[e])
  {
    var i := IndexOfWorld(ws, WorldKey(l));
    assert AddListing(ws, l) == ws;
    forall e | 0 <= e < |ws| ensures FirstCheapest(front + [l], ws[e]) {
      if e == i {
        FirstCheapestNotCheaper(front, l, ws[e]);
      } else {
        FirstCheapestOtherWorld(front, l, ws[e]);
      }
    }
  }

  /** `world_min_prices` has one entry per world of the listings, each with
      the world's lowest price and the review time of the first listing at
      that price (a later listing replaces it only when strictly cheaper). */
  lemma {:induction false} WorldMinimaSpec(listings: seq<Listing>)
    ensures MinimaOf(listings, WorldMinima(listings))
    decreases |listings|
  {
    if listings != [] {
      var front, l := listings[..|listings| - 1], listings[|listings| - 1];
      assert listings == front + [l];
      WorldMinimaSpec(front);
      var ws := WorldMinima(front);
      var i := IndexOfWorld(ws, WorldKey(l));
      AddListingCovers(front, ws, l);
      if i == |ws| {
        AddNewWorld(front, ws, l);
      } else if l.price < ws[i].price {
        AddCheaper(front, ws, l);
      } else {
        AddNotCheaper(front, ws, l);
      }
    }
  }

  /** The listing behind an entry of `world_min_prices`. */
  lemma EntryWitness(listings: seq<Listing>, c: nat) returns (k: nat)
    requires c < |WorldMinima(listings)|
    ensures var w := WorldMinima(listings)[c];
      && k < |listings| && WorldKey(listings[k]) == w.world
      && listings[k].price == w.price && ReviewTime(listings[k]) == w.time
  {
    WorldMinimaSpec(listings);
    var w := WorldMinima(listings)[c];
    assert FirstCheapest(listings, w);
    k :| 0 <= k < |listings| && WorldKey(listings[k]) == w.world && listings[k].price == w.price
         && ReviewTime(listings[k]) == w.time;
  }

  /** The entry of `world_min_prices` for a listing's world. */
  lemma WorldWitness(listings: seq<Listing>, k: nat) returns (i: nat)
    requires k < |listings|
    ensures var ws := WorldMinima(listings);
      && i < |ws| && ws[i].world == WorldKey(listings[k]) && ws[i].price <= listings[k].price
      && DistinctWorlds(ws)
  {
    var ws := WorldMinima(listings);
    WorldMinimaSpec(listings);
    assert CoversWorlds(listings, ws);
    i :| 0 <= i < |ws| && ws[i].world == WorldKey(listings[k]);
    assert FirstCheapest(listings, ws[i]);
  }

  /** There is more than one world entry exactly when the listings come from
      at least two worlds; only then can an arbitrage be reported. */
  lemma ArbitrageNeedsTwoWorlds(listings: seq<Listing>, velocity: real, tax: real, now: real)
    ensures |WorldMinima(listings)| > 1 <==>
              exists i, j :: 0 <= i < |listings| && 0 <= j < |listings| && WorldKey(listings[i]) != WorldKey(listings[j])
    ensures |WorldMinima(listings)| <= 1 ==> Arbitrage(WorldMinima(listings), velocity, tax, now) == (0.0, false)
  {
    var ws := WorldMinima(listings);
    if |ws| > 1 {
      var a := EntryWitness(listings, 0);
      var b := EntryWitness(listings, 1);
      var _ := WorldWitness(listings, a);
      assert WorldKey(listings[a]) != WorldKey(listings[b]);
    }
    if exists i, j :: 0 <= i < |listings| && 0 <= j < |listings| && WorldKey(listings[i]) != WorldKey(listings[j]) {
      var i, j :| 0 <= i < |listings| && 0 <= j < |listings| && WorldKey(listings[i]) != WorldKey(listings[j]);
      var a := WorldWitness(listings, i);
      var b := WorldWitness(listings, j);
      assert a != b;
    }
  }

  /** The first listing's world is the first entry of `world_min_prices`:
      entries are only ever appended or updated in place. */
  lemma {:induction false} FirstEntryWorld(listings: seq<Listing>)
    requires listings != []
    ensures WorldMinima(listings) != [] && WorldMinima(listings)[0].world == WorldKey(listings[0])
    decreases |listings|
  {
    if |listings| > 1 {
      var front := listings[..|listings| - 1];
      FirstEntryWorld(front);
      assert front[0] == listings[0];
    }
  }

  /** On cheapest-first listings the first entry of `world_min_prices` is
      the first listing's price and review time. */
  lemma FirstEntryIsFirstListing(listings: seq<Listing>)
    requires Sorted(listings, CheaperOrEqual) && listings != []
    ensures var ws := WorldMinima(listings);
      && ws != []
      && ws[0] == WorldMin(WorldKey(listings[0]), listings[0].price, ReviewTime(listings[0]))
  {
    var ws := WorldMinima(listings);
    FirstEntryWorld(listings);
    WorldMinimaSpec(listings);
    SortedFirstIsCheapest(listings);
    FirstCheapestAtHead(listings, ws[0]);
  }

  /** A first-cheapest entry for the world of a listing that is no dearer
      than any other is that listing's price and review time. */
  lemma FirstCheapestAtHead(listings: seq<Listing>, w: WorldMin)
    requires listings != [] && FirstCheapest(listings, w) && WorldKey(listings[0]) == w.world
    requires forall m :: 0 <= m < |listings| ==> listings[0].price <= listings[m].price
    ensures w.price == listings[0].price && w.time == ReviewTime(listings[0])
  {
    var k :| && 0 <= k < |listings| && WorldKey(listings[k]) == w.world
             && listings[k].price == w.price && ReviewTime(listings[k]) == w.time
             && forall j :: 0 <= j < k && WorldKey(listings[j]) == w.world ==> w.price < listings[j].price;
  }

  /** The first of cheapest-first listings is the cheapest. */
  lemma SortedFirstIsCheapest(listings: seq<Listing>)
    requires Sorted(listings, CheaperOrEqual)
    ensures forall m :: 0 <= m < |listings| ==> listings[0].price <= listings[m].price
  {
    forall m | 0 <= m < |listings| ensures listings[0].price <= listings[m].price {
      if m > 0 {
        assert CheaperOrEqual(listings[0], listings[m]);
      }
    }
  }

  /** On cheapest-first listings no entry is cheaper than the first listing. */
  lemma EntriesNotCheaper(listings: seq<Listing>)
    requires Sorted(listings, CheaperOrEqual)
    ensures forall e :: 0 <= e < |WorldMinima(listings)| ==> listings[0].price <= WorldMinima(listings)[e].price
  {
    var ws := WorldMinima(listings);
    SortedFirstIsCheapest(listings);
    forall e | 0 <= e < |ws| ensures listings[0].price <= ws[e].price {
      var m := EntryWitness(listings, e);
    }
  }

  /** On cheapest-first listings the entry `min` picks is the first
      listing's: it holds the overall lowest price and the review time of
      `listings[0]`. */
  lemma CheapestWorldIsCheapestListing(listings: seq<Listing>)
    requires Sorted(listings, CheaperOrEqual) && listings != []
    ensures var cheapest := CheapestWorld(WorldMinima(listings));
      && cheapest.price == listings[0].price
      && cheapest.time == ReviewTime(listings[0])
      && cheapest.world == WorldKey(listings[0])
  {
    var ws := WorldMinima(listings);
    FirstEntryIsFirstListing(listings);
    EntriesNotCheaper(listings);
    var cheapest := CheapestWorld(ws);
    var c :| 0 <= c < |ws| && ws[c] == cheapest && forall j :: 0 <= j < c ==> cheapest.price < ws[j].price;
    assert c == 0;
  }

  /** On cheapest-first listings from several worlds, the spread is the
      highest per-world minimum after tax less the overall cheapest price, and
      the staleness check uses the review time of the cheapest listing. */
  lemma ArbitrageSpread(listings: seq<Listing>, velocity: real, tax: real, now: real)
    requires Sorted(listings, CheaperOrEqual) && |WorldMinima(listings)| > 1
    ensures var ws := WorldMinima(listings);
      && Arbitrage(ws, velocity, tax, now).0 == AfterTax(HighestMinimum(ws) as real, tax) - listings[0].price as real
      && (Arbitrage(ws, velocity, tax, now).1 <==> now - UploadSeconds(ReviewTime(listings[0])) > WarningThreshold(velocity) as real)
  {
    assert listings != [];
    CheapestWorldIsCheapestListing(listings);
  }

  /** A percentage `unit / p * 100` exceeds `c` exactly when `unit * 100`
      exceeds `c * p`. */
  lemma RoiAbove(unit: real, p: real, c: real)
    requires p > 0.0
    ensures unit / p * 100.0 > c <==> unit * 100.0 > c * p
  {
    var q := unit / p;
    DivTimes(unit, p);
    assert (q * 100.0) * p == (q * p) * 100.0;
    if q * 100.0 > c {
      assert (q * 100.0) * p > c * p;
    } else {
      assert (q * 100.0) * p <= c * p;
    }
  }

  /** Sniping reports the cheapest stack's resale profit at the second price
      exactly when there are two listings, the second price is not absurd
      against the average (more than three times it), and the profit reaches
      the threshold or is a penny-stock snipe (ROI above 200% for less than
      5000); otherwise both figures are 0. */
  lemma SnipingSpec(listings: seq<Listing>, avg: real, tax: real, threshold: int)
    ensures var (profit, cost) := Sniping(listings, avg, tax, threshold);
      |listings| < 2 ==> profit == 0.0 && cost == 0
    ensures |listings| >= 2 ==>
      var (profit, cost) := Sniping(listings, avg, tax, threshold);
      var p1, p2, q1 := listings[0].price, listings[1].price, listings[0].quantity;
      var unit := AfterTax(p2 as real, tax) - p1 as real;
      var worth := && !(avg > 0.0 && p2 as real > avg * 3.0)
                   && (unit * q1 as real >= threshold as real
                       || (p1 > 0 && unit * 100.0 > PennyRoi * p1 as real && p1 * q1 < PennyCost));
      && (worth ==> profit == unit * q1 as real && cost == p1 * q1)
      && (!worth ==> profit == 0.0 && cost == 0)
  {
    if |listings| >= 2 {
      var p1 := listings[0].price;
      var p2 := listings[1].price;
      var unit := AfterTax(p2 as real, tax) - p1 as real;
      if p1 > 0 {
        RoiAbove(unit, p1 as real, PennyRoi);
      }
    }
  }

  /** `clean_market_data` keeps every item that passes as often as it occurs
      and drops every other, and it works item by item, so it keeps their
      order. */
  lemma CleanedSpec(items: seq<ItemData>, more: seq<ItemData>, threshold: int, x: ItemData)
    ensures multiset(Cleaned(items, threshold))[x] ==
              if x.listings != [] && x.listings[0].price >= threshold then multiset(items)[x] else 0
    ensures Cleaned(items + more, threshold) == Cleaned(items, threshold) + Cleaned(more, threshold)
  {
    FilterCount(items, KeepsAt(threshold), x);
    FilterAppend(items, more, KeepsAt(threshold));
  }

  /** `calculate_velocity_in_timeframe` counts exactly the quantity of the
      priced sales strictly newer than `hours` hours before `now`: with the
      empty history giving 0, each further sale adds its quantity when it is
      priced and inside the window, and nothing otherwise. */
  lemma VelocityInTimeframeSnoc(history: seq<Sale>, s: Sale, hours: int, now: real)
    ensures VelocityInTimeframe([], hours, now) == (0, false)
    ensures VelocityInTimeframe(history + [s], hours, now).0 ==
            VelocityInTimeframe(history, hours, now).0
            + (if s.price > 0 && s.timestamp as real > HoursBefore(now, hours) then s.quantity else 0)
  {
    var inWindow := After(HoursBefore(now, hours));
    var priced := Filter(history, HasPrice);
    var last := Filter([s], HasPrice);
    FilterAppend(history, [s], HasPrice);
    FilterAppend(priced, last, inWindow);
    var front := Filter(priced, inWindow);
    if s.price > 0 && s.timestamp as real > HoursBefore(now, hours) {
      assert Filter(last, inWindow) == [s];
      SumOfSnoc(front, s, SaleQuantity);
    } else {
      assert Filter(last, inWindow) == [];
      assert front + [] == front;
    }
  }

  /** A wider window never counts fewer sales, the count never exceeds the
      quantity of all priced sales, and `is_unstable` is always false. */
  lemma VelocityInTimeframeSpec(history: seq<Sale>, hours1: int, hours2: int, now: real)
    requires hours1 <= hours2
    ensures VelocityInTimeframe(history, hours1, now).0 <= VelocityInTimeframe(history, hours2, now).0
    ensures VelocityInTimeframe(history, hours2, now).0 <= SumOf(Filter(history, HasPrice), SaleQuantity)
    ensures !VelocityInTimeframe(history, hours1, now).1
  {
    if history != [] {
      var priced := Filter(history, HasPrice);
      var c1, c2 := HoursBefore(now, hours1), HoursBefore(now, hours2);
      assert c2 <= c1;
      var p1, p2 := After(c1), After(c2);
      assert VelocityInTimeframe(history, hours1, now).0 == SumOf(Filter(priced, p1), SaleQuantity);
      assert VelocityInTimeframe(history, hours2, now).0 == SumOf(Filter(priced, p2), SaleQuantity);
      forall h: Sale ensures p1(h) ==> p2(h) {
      }
      SumOfFilterMonotone(priced, p1, p2, SaleQuantity);
      SumOfFilterLe(priced, p2, SaleQuantity);
    }
  }
}
