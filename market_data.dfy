/** The market records the analyzer consumes (market_api.py): listings and
    sales of one item as the market board returns them, the per-item entries
    of a batch reply, and the analysis settings. Every numeric field the
    market sends is present; a key the code reads with a default is an
    Option here. */
module MarketData {
  import opened Basics

  /** One current listing. `worldName` may be absent, in which case the world
      is named by `str(worldID)`, itself possibly `None`. */
  datatype Listing = Listing(
    price: nat,
    quantity: nat,
    hq: bool,
    worldName: Option<string>,
    worldId: Option<int>,
    lastReviewTime: Option<int>)

  /** One past sale of `recentHistory`. */
  datatype Sale = Sale(price: nat, quantity: nat, hq: bool, timestamp: int)

  /** One entry of a batch reply: `itemID` and `minPrice` may be absent. */
  datatype ItemData = ItemData(
    itemId: Option<int>,
    minPrice: Option<int>,
    listings: seq<Listing>,
    history: seq<Sale>)

  /** The snapshot handed to `calculate_metrics`: a single-item reply, or a
      multi-item reply whose `items` dict is given by its values in order. */
  datatype Snapshot =
    | Single(listings: seq<Listing>, history: seq<Sale>)
    | Multi(items: seq<ItemData>)

  /** The settings `calculate_metrics` reads; a missing key takes its default. */
  datatype Config = Config(
    velocityDays: Option<int>,
    avgPriceEntries: Option<int>,
    avgPriceDaysLimit: Option<int>,
    marketTaxRate: Option<int>,
    snipingMinProfit: Option<int>)

  function ListingPrice(l: Listing): nat { l.price }
  function ListingQuantity(l: Listing): nat { l.quantity }
  function SalePrice(h: Sale): nat { h.price }
  function SaleQuantity(h: Sale): nat { h.quantity }
  function IsHqListing(l: Listing): bool { l.hq }
  /** `lastReviewTime`, 0 when absent. */
  function ReviewTime(l: Listing): int { l.lastReviewTime.GetOr(0) }
  function IsHqSale(h: Sale): bool { h.hq }

  function ListingCount(item: ItemData): nat { |item.listings| }
  function SaleCount(item: ItemData): nat { |item.history| }

  /** The listings of every item of a multi-item reply, item after item:
      every listing of every item, nothing else, and as many as there are. */
  function AllListings(items: seq<ItemData>): (r: seq<Listing>)
    ensures forall i, l :: 0 <= i < |items| && l in items[i].listings ==> l in r
    ensures forall l :: l in r ==> exists i :: 0 <= i < |items| && l in items[i].listings
    ensures |r| == SumOf(items, ListingCount)
  {
    if items == [] then []
    else AllListings(items[..|items| - 1]) + items[|items| - 1].listings
  }

  /** The sales of every item of a multi-item reply, item after item:
      every sale of every item, nothing else, and as many as there are. */
  function AllHistory(items: seq<ItemData>): (r: seq<Sale>)
    ensures forall i, h :: 0 <= i < |items| && h in items[i].history ==> h in r
    ensures forall h :: h in r ==> exists i :: 0 <= i < |items| && h in items[i].history
    ensures |r| == SumOf(items, SaleCount)
  {
    if items == [] then []
    else AllHistory(items[..|items| - 1]) + items[|items| - 1].history
  }

  /** Flattening keeps the order of the items: the listings of a reply split
      in two are those of the first part followed by those of the second. */
  lemma {:induction false} AllListingsAppend(a: seq<ItemData>, b: seq<ItemData>)
    ensures AllListings(a + b) == AllListings(a) + AllListings(b)
    decreases |b|
  {
    if b != [] {
      var b' := b[..|b| - 1];
      assert (a + b)[..|a + b| - 1] == a + b';
      assert (a + b)[|a + b| - 1] == b[|b| - 1];
      AllListingsAppend(a, b');
      calc {
        AllListings(a + b);
        AllListings(a + b') + b[|b| - 1].listings;
        AllListings(a) + (AllListings(b') + b[|b| - 1].listings);
      }
    } else {
      assert a + b == a;
    }
  }

  /** Flattening keeps the order of the items, for sales. */
  lemma {:induction false} AllHistoryAppend(a: seq<ItemData>, b: seq<ItemData>)
    ensures AllHistory(a + b) == AllHistory(a) + AllHistory(b)
    decreases |b|
  {
    if b != [] {
      var b' := b[..|b| - 1];
      assert (a + b)[..|a + b| - 1] == a + b';
      assert (a + b)[|a + b| - 1] == b[|b| - 1];
      AllHistoryAppend(a, b');
      calc {
        AllHistory(a + b);
        AllHistory(a + b') + b[|b| - 1].history;
        AllHistory(a) + (AllHistory(b') + b[|b| - 1].history);
      }
    } else {
      assert a + b == a;
    }
  }

  function SnapshotListings(data: Snapshot): seq<Listing> {
    match data
    case Single(listings, _) => listings
    case Multi(items) => AllListings(items)
  }

  function SnapshotHistory(data: Snapshot): seq<Sale> {
    match data
    case Single(_, history) => history
    case Multi(items) => AllHistory(items)
  }
}
