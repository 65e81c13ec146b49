# FF14Market core, modelled in Dafny

FF14Market is a desktop tool for the Final Fantasy XIV market board. This
project models and proves properties of its computational core:

- **Crafting cost resolver** (`CraftingService`, module `Crafting`,
  crafting_service.py).
  - Every ingredient is either bought at the cheapest listing or crafted from
    its own recipe, whichever is strictly cheaper. Ties go to buying.
  - The recursion is bounded by a per-path visited set and a depth ceiling of
    10.
  - It produces the top-level report with total cost, product price and
    profit. Before costing, it collects the ids of the recipe tree and makes
    one batch price request.
- **Recipe index** (`RecipeProvider`, module `Recipes`, recipe_provider.py).
  - It is built from the recipe list. The first recipe for a result item
    wins.
  - `get_recipe` normalises a raw record, with `amount` and `yields`
    defaulting to 1.
- **Market analyzer** (`DataAnalyzer`, module `Analyzer`, market_api.py).
  - `calculate_metrics`: flattening, the HQ filter, and stable sorting of
    listings (cheapest first) and sales (newest first).
  - Outlier rejection around the median sale price, and sales velocity.
  - The three-stage average price fallback (Normal, Old, Est, None) and the
    "zombie listing" effective stock.
  - Profit, flip profit and ROI; the per-world arbitrage spread with its
    staleness warning; sniping validation.
  - The three most common stack sizes (`Counter.most_common`, module
    `StackPopularity`). Sizes with equal counts come in the order of their
    first appearance in the filtered sales history, as `Counter` keeps
    insertion order and its sort is stable.
  - Also `_empty_metrics`, `clean_market_data` and
    `calculate_velocity_in_timeframe`.
- **Hot items ranking** (module `HotItems`). This is the analysis part of
  `fetch_hot_items`:
  - error results when no ids come back or the batch query fails;
  - the cleaning pass with a 300 gil threshold;
  - one row per item that sold in the window;
  - a stable ranking by heat, then by number of transactions, both
    descending.
- **Treasure map alias script** (module `MapAliases`, add_map_aliases.py).
  - It adds each "陳舊的地圖G<n>" alias of the 17-entry table to `by_name`.
  - It never overwrites an entry.
  - It counts added, skipped and verified entries, and writes back only when
    something was added.

**Shared modules.**

- `Basics`: Option, Filter, sums, minimum and maximum, and a few arithmetic
  facts.
- `StableSort`: Python's stable `list.sort`, modelled as insertion sort. It
  has a functional specification and an in-place array method proved equal
  to it.
- `MarketData`: the records the market board returns.

**Conventions.**

- Prices and quantities are natural numbers.
- Derived figures (velocity, averages, ratios) are exact reals.
- The current time is a parameter `now`, in seconds.
- Collaborators are given as values: the parsed recipe file, the price book
  of a batch reply, and the batch status code.

**Notes on the source.**

- `clean_market_data` is defined twice in market_api.py. The second
  definition (507-526) shadows the first and is the one modelled.
- `calculate_velocity_in_timeframe` always returns `False` as its second
  value.
- Ranking ties on heat are broken by transaction count only. Sorting is
  stable otherwise.

## Model

| member | source | states |
|---|---|---|
| Crafting.MarketPrice | crafting_service.py:111-116 | The product/material price is 0 when the item is absent from the reply or has no listings; otherwise it is one of the item's listing prices, the lowest one when the listings are in ascending order. |
| Crafting.BuyCost | crafting_service.py:126-128 | The buy cost is infinite (Unavailable) exactly when the market price is 0, and otherwise equals the market price. |
| Crafting.Resolve | crafting_service.py:118-170 | A node sourced by buying carries the buy cost and no materials; a node sourced by crafting has a finite cost strictly below the buy cost. |
| Crafting.ResolveDecision | crafting_service.py:118-170 | Complete make-or-buy rule: an id already on the path, at depth 10 or without a recipe is bought (cost infinite when unpriced); otherwise the item is crafted with its material lines exactly when the craft cost (infinite if any material is unavailable, else the sum of cost times amount) is strictly below the buy cost, and bought otherwise. |
| Crafting.CraftedIffStrictlyCheaper | crafting_service.py:118-170 | The resolver reports "crafted" if and only if the id is new on the path, the depth is below 10, it has a recipe, every material is available and the material total is strictly below the buy cost. |
| Crafting.TieGoesToBuying | crafting_service.py:167-170 | When the craft cost equals the buy cost, the item is bought and no materials are listed. |
| Crafting.UnavailableIngredientBlocksCrafting | crafting_service.py:141-143 | One unavailable material makes the whole recipe uncraftable, so the item is bought at market price (or is itself unavailable). |
| Crafting.ResolveHeight | crafting_service.py:118-122 | The returned material tree is never deeper than 10 minus the starting depth: the depth ceiling bounds the recursion. |
| Crafting.CraftPrefixHeight | crafting_service.py:138-162 | The lines produced by the craft loop nest at most one level more than the ceiling left at that depth. |
| Crafting.MaterialLines | crafting_service.py:45-73 | The report has exactly one material line per recipe material. |
| Crafting.CraftPrefixLines | crafting_service.py:138-162 | When the craft loop ends with a finite cost, its lines are exactly the per-material lines in recipe order. |
| Crafting.AnyUnavailable | crafting_service.py:53-54 | The "not craftable" flag is set if and only if some material resolves to an infinite cost. |
| Crafting.CraftPrefixCost | crafting_service.py:138-165 | The loop that breaks at the first unavailable material computes the same craft cost as inspecting every material: infinite if any material is unavailable, otherwise the sum of cost times amount. |
| Crafting.CraftPrefixStaysUnavailable | crafting_service.py:141-143 | After the first unavailable material (the `break`), the remaining materials do not change the loop's result. |
| Crafting.Collected | crafting_service.py:96-109 | Tree collection leaves both sets unchanged for a visited id or at depth 10; otherwise it records the id in both sets; the all-ids set grows by exactly the newly visited ids, and these are all reachable in the recipe graph within the remaining depth. |
| Crafting.CollectedAll | crafting_service.py:108-109 | Collecting the materials of a recipe only adds newly visited ids, all reachable from those materials within the remaining depth. |
| Crafting.Fetched | crafting_service.py:36 | The batch reply holds exactly the requested ids that the market knows, each with its market listings. |
| Crafting.ReportSpec | crafting_service.py:40-90 | The report has one line per top-level material; an unavailable material is shown with price 0 and out of stock, an available one with its cost; any unavailable material makes the total cost 0; a non-zero profit needs a positive product price and all materials available, and equals product price minus total cost. |
| Crafting.PriceBookClient.FetchBatch | crafting_service.py:36 | The batch request returns the requested part of the market with the fixed status code, and the request is recorded. |
| Crafting.CraftingService.constructor | crafting_service.py:5-10 | A new service has its recipes and an empty no-recipe cache. |
| Crafting.CraftingService.GetCraftingData | crafting_service.py:12-94 | A cached id returns no_recipe without any request; an id without a recipe returns no_recipe and is added to the cache; otherwise exactly one batch request is made for the collected tree ids, a non-200 status gives api_error with that code, and a 200 gives the report over the fetched prices. |
| Crafting.CraftingService.BuildReport | crafting_service.py:40-90 | The top-level loop with running total, craftable flag and material lines produces exactly the report specification. |
| Crafting.CraftingService.CollectTree | crafting_service.py:96-109 | The recursive collector, which threads the shared visited set and all-ids set, returns exactly the collection specification. |
| Crafting.CraftingService.CalculateCost | crafting_service.py:118-170 | The recursive cost method returns exactly the make-or-buy specification node. |
| Crafting.CraftingService.CraftMaterials | crafting_service.py:134-165 | The craft loop, which copies the visited set for each material and breaks on an unavailable one, returns exactly the craft specification. |
| Recipes.NormalisedMaterials | recipe_provider.py:87-92 | Material i has the id of raw ingredient i and its amount, 1 when the amount is absent; there is one material per ingredient, in order. |
| Recipes.IndexKeepsFirst | recipe_provider.py:51-61 | After the build loop, the index keys are the old keys plus every truthy result id; old entries are unchanged; each new key maps to the first record producing it; records without a result are ignored. |
| Recipes.InsertedCount | recipe_provider.py:51-64 | The reported count equals the number of distinct new result ids. |
| Recipes.RecipeProvider.constructor | recipe_provider.py:15-18 | A new provider has an empty index and is not loaded. |
| Recipes.RecipeProvider.Graph | recipe_provider.py:76-84 | The recipes visible to the resolver are exactly the indexed result ids once loaded, and none before. |
| Recipes.RecipeProvider.Load | recipe_provider.py:20-69 | Loading is a no-op when already loaded or when the file cannot be obtained; otherwise the index becomes the first-wins index of the records, the provider is marked loaded, and the count is the number of inserted entries. |
| Recipes.RecipeProvider.GetRecipe | recipe_provider.py:71-98 | On first use it loads: with a file the index becomes the first-wins index of its records and the provider is loaded; without one nothing changes. It returns None when loading failed or the id is not indexed, otherwise the normalised recipe of the indexed record. A loaded index is never changed. |
| Recipes.Normalise | recipe_provider.py:86-98 | Recipe id copied, result amount = yields or 1, and one material per ingredient with amount defaulting to 1. |
| StableSort.SortBySorted | market_api.py:299-300 | For a total preorder, the sort's output is ordered and is a permutation of its input. |
| StableSort.SortByKeepsEquivalents | market_api.py:299-300 | The sort is stable for every input: for any element, the subsequence of elements that compare equal to it is the same before and after sorting. |
| StableSort.SortByStable | market_api.py:449-450 | When a rank strictly increases along the input (so the input has no repeated element, as the counter's entries), it still increases among equal elements after sorting. |
| StableSort.SortBySortedIsIdentity | market_api.py:299-300 | Sorting an already ordered list leaves it unchanged, as a stable sort does. |
| StableSort.SortByMembers | market_api.py:299-300 | Sorting keeps exactly the same elements. |
| StableSort.FilterKeepsSorted | market_api.py:309-331 | A comprehension over an ordered list yields an ordered list. |
| StableSort.InsertInPlace | market_api.py:299-300 | Shifting one element down into the sorted prefix of an array yields the functional insertion. |
| StableSort.SortInPlace | market_api.py:299-300 | The in-place array sort produces exactly the stable-sort specification of the original contents. |
| MarketData.AllListings | market_api.py:286-289 | Flattening a multi-item reply keeps every listing of every item, yields nothing else, and its length is the sum of the items' listing counts. |
| MarketData.AllHistory | market_api.py:286-289 | Flattening a multi-item reply keeps every sale of every item, yields nothing else, and its length is the sum of the items' history lengths. |
| MarketData.AllListingsAppend | market_api.py:286-288 | Flattening follows item order: the listings of a reply split in two are the first part's listings followed by the second's. |
| MarketData.AllHistoryAppend | market_api.py:286-289 | Flattening follows item order: the sales of a reply split in two are the first part's sales followed by the second's. |
| Analyzer.VelocityDays | market_api.py:274 | The velocity window is at least one day, and 7 when the setting is absent. |
| Analyzer.CalculateMetrics | market_api.py:272-471 | The metrics method (array sorts in place, world-minimum loop) returns exactly the analysis specification. |
| Analyzer.EmptyMetricsIffNoData | market_api.py:302-303 | The empty record is returned if and only if both the filtered listings and the filtered history are empty. |
| Analyzer.MergedListsSorted | market_api.py:294-300 | The merged listings are cheapest first and the merged history newest first; each is a permutation of the (HQ-filtered) input, and with HQ only every entry is HQ. |
| Analyzer.SortOrdersAreTotal | market_api.py:299-300 | The price, timestamp and quantity orders are total preorders, so the sorts are well defined. |
| Analyzer.MedianIsMiddle | market_api.py:312-313 | The median is one of the prices; no element sorted before it is larger, and no element sorted after it is smaller. |
| Analyzer.MedianPositive | market_api.py:309-313 | The median of positive prices is positive. |
| Analyzer.ValidHistoryMembers | market_api.py:309-317 | A sale is valid if and only if it is in the history, has a positive price, and lies within 0.1 and 10 times the median of the priced sales (bounds included); with no priced sale nothing is valid. |
| Analyzer.RecentSalesMembers | market_api.py:319-320 | A sale counts as recent if and only if it is valid and strictly newer than the velocity cutoff. |
| Analyzer.RecentSalesMonotone | market_api.py:319-322 | A longer window never counts fewer units sold. |
| Analyzer.VelocityPerDay | market_api.py:322-325 | Units per day times the number of days equals the units sold in the window, and is never negative. |
| Analyzer.TransactionsPerDay | market_api.py:323-326 | Transactions per day times the number of days equals the number of recent sales, and is never negative. |
| Analyzer.NormalCandidatesInWindow | market_api.py:330-337 | The Normal-tier candidates are at most `avg_price_entries` valid sales, all strictly inside the average-price window; the tier applies exactly when a valid sale is inside the window and the setting is positive, or, for a negative setting, when more in-window sales exist than the setting removes. |
| Analyzer.NormalCandidatesNewest | market_api.py:330-331 | The candidates are the first in-window sales, and on newest-first sales no in-window sale left out is newer than any averaged one. |
| Analyzer.AveragePriceTiers | market_api.py:328-352 | Exactly one tier applies, in the fallback order Normal, Old, Est, None; the average lies between the minimum and maximum price of that tier's candidates; None gives 0. |
| Analyzer.EffectiveListingsMembers | market_api.py:355-357 | A listing counts toward effective stock if and only if its price is at most 1.5 times the cheapest price. |
| Analyzer.EffectiveStockAtMostRaw | market_api.py:355-358 | The effective stock never exceeds the raw total stock. |
| Analyzer.EffectiveStockHasCheapest | market_api.py:355-357 | On sorted listings the cheapest price is a lower bound and the first listing is always effective. |
| Analyzer.DaysToSellSpec | market_api.py:360-362 | With a positive velocity, the days to sell times the velocity equals the effective stock; with zero velocity it is 999. |
| Analyzer.ProfitFigures | market_api.py:365-372 | Revenue per unit is the minimum price after tax; flip profit plus the minimum price is the average after tax; ROI times the minimum price is 100 times the flip profit, and ROI is 0 without a price. |
| Analyzer.CheapestWorld | market_api.py:397-398 | The chosen world entry is one of the entries with the lowest price, and it is the first such entry, as `min` picks. |
| Analyzer.HighestMinimum | market_api.py:399 | The highest world minimum is one of the entries' prices and bounds all of them. |
| Analyzer.CollectWorldMinima | market_api.py:385-394 | The per-world loop returns exactly the world-minima specification. |
| Analyzer.WorldMinimaSpec | market_api.py:385-394 | The world table lists each world once; every entry is the first strictly cheapest listing of its world (price and review time); every listing's world is present. |
| Analyzer.EntryWitness | market_api.py:390-394 | Every world entry comes from a listing of that world with the same price and review time. |
| Analyzer.WorldWitness | market_api.py:387-394 | Every listing's world has an entry no dearer than that listing, and the worlds are distinct. |
| Analyzer.FirstEntryIsFirstListing | market_api.py:385-394 | On sorted listings, the first world entry is the first listing's world with that listing's price and review time. |
| Analyzer.EntriesNotCheaper | market_api.py:385-398 | On sorted listings, no world entry is cheaper than the first listing. |
| Analyzer.ArbitrageNeedsTwoWorlds | market_api.py:375-396 | There is more than one world entry if and only if two listings come from different worlds; otherwise spread and warning are 0 and false. |
| Analyzer.CheapestWorldIsCheapestListing | market_api.py:397-403 | On sorted listings, the cheapest world entry has the first listing's world, price and review time. |
| Analyzer.ArbitrageSpread | market_api.py:378-407 | With two or more worlds, the spread is the highest world minimum after tax minus the cheapest listing price; the warning is raised exactly when the first listing's review time (converted from ms above 2000000000) is older than the velocity-dependent threshold. |
| Analyzer.SnipingSpec | market_api.py:409-444 | With fewer than two listings both sniping figures are 0. Otherwise the profit is (second price after tax − first price) × first quantity and the cost is first price × quantity. This applies exactly when the gap is sane (no average, or second price ≤ 3 × average) and either the total reaches the threshold or ROI > 200% with cost < 5000; otherwise both are 0. |
| Analyzer.CleanedSpec | market_api.py:507-526 | An item is kept (with its multiplicity) if and only if it has listings and its first listing's price is at least the threshold; cleaning distributes over concatenation, so order is kept. |
| Analyzer.CleanMarketData | market_api.py:507-526 | The cleaning loop returns exactly the kept items in order. |
| Analyzer.VelocityInTimeframeSnoc | market_api.py:529-546 | The windowed count is 0 for an empty history, and each further sale adds its quantity exactly when it has a positive price and is strictly newer than `hours` hours before now; so the count is the quantity of the priced sales inside the window. |
| Analyzer.VelocityInTimeframeSpec | market_api.py:529-546 | The windowed count grows with the window, never exceeds the units of all priced sales, and the instability flag is always false. |
| StackPopularity.IndexOfValue | market_api.py:449 | The lookup finds the first entry counting that value, or none exists. |
| StackPopularity.FirstOccurrence | market_api.py:449 | The first position of a value in the list, or the list length when it does not occur. |
| StackPopularity.TallyFirstSeenOrder | market_api.py:449 | The counter lists the values in the order of their first appearance. |
| StackPopularity.TallyCounts | market_api.py:449 | The counter lists each value once, every counted value occurs in the input with its exact multiplicity, and every input value is counted. |
| StackPopularity.SortedTally | market_api.py:449-450 | Sorting the counter by count keeps exactly those entries and orders them by descending count. |
| StackPopularity.CountOrderIsTotal | market_api.py:450 | The order by count is a total preorder. |
| StackPopularity.MostCommonSpec | market_api.py:449-450 | `most_common(n)` returns at most n distinct stack sizes with their true counts in descending count order, sizes with equal counts in order of first appearance; any size left out means n were returned, each counted at least as often. |
| StackPopularity.MostCommonTies | market_api.py:449-450 | Among stack sizes with equal counts, the one that appears first in the filtered sales history comes first. |
| HotItems.Rows | market_api.py:217-254 | At most one row per cleaned item. |
| HotItems.ScanHotItems | market_api.py:193-257 | The scan (error checks, cleaning, row loop, in-place stable sort) returns exactly the hot-items specification. |
| HotItems.ScanErrors | market_api.py:195-206 | The scan fails if and only if no recent ids came back, the status is not 200, or the reply is empty; with ids present, the failure carries the HTTP status. |
| HotItems.HotterOrEqualIsTotal | market_api.py:257 | The ranking order (heat, then transactions, descending) is a total preorder. |
| HotItems.HeatFollowsSold | market_api.py:225-228 | Heat orders items exactly as units sold do (equal heat iff equal units), and selling something gives positive heat. |
| HotItems.RowsAppend | market_api.py:217-254 | The row loop distributes over concatenation, so rows keep input order. |
| HotItems.RowsCover | market_api.py:217-254 | Every item that sold in the window has its row. |
| HotItems.RowsFrom | market_api.py:217-254 | Every row is the row of some item that sold in the window. |
| HotItems.RowFigures | market_api.py:222-243 | A row's item has at least one transaction and positive heat, and its integer average lies between its cheapest and dearest listing prices. |
| HotItems.ScanRanked | market_api.py:213-257 | On success the rows are sorted by heat and then transactions, descending, and are a permutation of the per-item rows. Every row has positive units, heat, transactions and stock, and comes from a kept item of the reply that sold; every such item appears. |
| MapAliases.MergeAliases | add_map_aliases.py:40-66 | The merge loop over the table yields exactly the merge specification: dictionary and three counters. |
| MapAliases.AddMapAliases | add_map_aliases.py:33-71 | The script merges the 17-entry table and writes a new dictionary if and only if at least one alias was added. |
| MapAliases.MergeKeepsEntries | add_map_aliases.py:56-66 | No existing entry is overwritten, and the keys afterwards are the old keys plus the table's aliases. |
| MapAliases.AddedCountsNewKeys | add_map_aliases.py:63-66 | The dictionary grows by exactly the `added` count. |
| MapAliases.MergeLeavesOtherKeys | add_map_aliases.py:56-66 | A key that is not an alias of the table is present afterwards if and only if it was before, with the same id. |
| MapAliases.AbsentAliasInserted | add_map_aliases.py:63-64 | With distinct aliases, an alias absent beforehand maps to its expected id afterwards. |
| MapAliases.CountersSpec | add_map_aliases.py:44-66 | With distinct aliases that are not old names, `added` counts the aliases missing beforehand, `skipped` those already present with the expected id, and `verified` the old names present with the expected id. |
| MapAliases.MergeIdempotent | add_map_aliases.py:56-71 | Running the merge a second time adds nothing and leaves the dictionary unchanged, so the script does not rewrite it. |
| MapAliases.AliasShape | add_map_aliases.py:14-30 | Entry i's alias is "陳舊的地圖G" followed by the decimal digits of i+1: 7 characters for G1-G9 and 8 for G10-G17, ending in the last digit of i+1. |
| MapAliases.OldNameShape | add_map_aliases.py:14-30 | Every old name ends in "地圖". |
| MapAliases.TableAliasesDistinct | add_map_aliases.py:12-31 | The table's aliases are pairwise distinct. |
| MapAliases.TableOldNamesAreNotAliases | add_map_aliases.py:12-31 | No old name of the table is one of its aliases, so the counters' characterisation applies to the real table. |

## Left out

- **Display text.** Item display names from the database, the emoji status strings and the error message texts are not modelled. Material lines carry the item id and a status value; hot-items errors are a `ScanError` value.
- **`get_crafting_data` defaults and errors.** The default server when none is set is not modelled; nor is the `try`/`except` that turns any exception into an "error" status, since no modelled step raises.
- **Collaborators as inputs.** Network downloads, the recipe cache file, the JSON parser, logging, `print` and progress callbacks are left out. The parsed recipe list, the batch price book, the status code, the recent-item id list and the batch reply are inputs.
- **Clock.** `datetime.now()` is a parameter `now`. `fetch_hot_items` reads the clock once per item; the model uses one instant for the whole scan.
- **Floating point.** IEEE floats are modelled as exact reals: velocity, averages, tax, ROI, heat and days to sell.
- HotItems.AveragePriceOf: `int()` of a float average is modelled as exact integer division. That is the same for the non-negative integer sums involved, up to float rounding.
- **Key shapes.** The price book is keyed by the integer id; the source looks it up as `str(item_id)`, assuming the reply is keyed that way.
- **Missing fields.** Listing and sale records always carry `pricePerUnit`, `quantity`, `hq` and `timestamp`, although the code reads them with a default of 0 or false. The other keys read with a default are Options: `worldName`, `worldID`, `lastReviewTime` (0 when absent), `itemID`, `minPrice`, the settings and the recipe fields.
- **Multi-item replies.** A multi-item reply is only recognised when `items` is a dict. The model takes its values in order (`Snapshot.Multi`).
- **`_empty_metrics` extras.** The `stack_diff` field of `_empty_metrics` is not part of the Metrics record. The record's integer zeros are real zeros.
- **In-place sorting.** `calculate_metrics` sorts the caller's lists in place. The model sorts copies, so the caller-visible change to the input snapshot is not captured.
- **Recipe amounts.** Recipe amounts are natural numbers, and ingredient ids are always present.
- CraftingService: the service holds a fixed recipe graph (the index of a provider that has loaded) instead of calling `recipe_provider.get_recipe` on each request (crafting_service.py:22-25). The lazy load and its retry after a failed load (recipe_provider.py:76-80) are therefore not combined with the no-recipe cache: in the source, an item queried while loading fails is cached as "no_recipe" and stays so after a later load succeeds; the model does not capture this.
- **Locking.** The thread lock of `RecipeProvider` is not modelled.
- **Failed loads.** Deleting a bad cache file after a failed load is a file-system effect and is left out; a failed load is `None` input.
- **Alias script file handling.** Reading and rewriting the whole JSON file are left out. Only the `by_name` dictionary is modelled; the written result is the new dictionary.
- **Hot-items fetches.** `fetch_recently_updated_items` and `fetch_market_data_batch` (network calls) are inputs to the hot-items scan.
- **Other repository code.** The rest of `MarketAPI` (HTTP wrappers, retries, caching), the UI in app.py and the item database are not part of this model.
