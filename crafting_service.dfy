/** The cost resolver of `CraftingService` (crafting_service.py): a recursive
    make-or-buy decision over the recipe graph, bounded by a per-path visited
    set and a depth ceiling, with buying preferred on ties, and the top-level
    report with its total cost and profit. The market is a batch lookup
    (PriceBookClient) that records each request it receives. */
module Crafting {
  import opened Basics
  import opened Recipes

  /** `MAX_RECURSION_DEPTH`. */
  const MaxRecursionDepth: nat := 10

  /** The HTTP status of a successful batch fetch. */
  const StatusOk: int := 200

  /** The batch price book: item id to the unit prices of its listings, in the
      order the market returns them (ascending). */
  type PriceBook = map<int, seq<nat>>

  /** A unit cost: a finite amount, or `math.inf` when there is no way to get
      the item. */
  datatype Cost = Finite(value: nat) | Unavailable

  datatype Source = Bought | Crafted

  /** The status shown for a material line: crafted, bought, out of stock. */
  datatype Status = ShownCrafted | ShownBought | OutOfStock

  /** One entry of a `materials` list; the display name is left out and the
      item id kept instead. */
  datatype MaterialLine = MaterialLine(
    id: int,
    amount: nat,
    price: nat,
    subtotal: nat,
    status: Status,
    subMaterials: seq<MaterialLine>)

  /** What `_calculate_cost_recursive` returns: `{cost, materials, source}`. */
  datatype CostNode = CostNode(cost: Cost, materials: seq<MaterialLine>, source: Source)

  /** What `get_crafting_data` returns. */
  datatype CraftingResult =
    | NoRecipe
    | ApiError(code: int)
    | Success(totalCost: nat, productPrice: nat, profit: int, materials: seq<MaterialLine>)

  /** The running state of the craft loop: cost so far and the lines kept. */
  datatype Craft = Craft(cost: Cost, lines: seq<MaterialLine>)

  /** `a < b` on costs, with Unavailable above every finite cost. */
  predicate Less(a: Cost, b: Cost) {
    match a
    case Unavailable => false
    case Finite(x) => b.Unavailable? || x < b.value
  }

  predicate Ascending(prices: seq<nat>) {
    forall i, j :: 0 <= i < j < |prices| ==> prices[i] <= prices[j]
  }

  /** `_get_price_from_market_data`: the first listing's price, 0 when the
      item is missing or has no listings. */
  function MarketPrice(book: PriceBook, id: int): (p: nat)
    ensures id !in book || book[id] == [] ==> p == 0
    ensures id in book && book[id] != [] ==> p in book[id]
    ensures id in book && Ascending(book[id]) ==> forall q :: q in book[id] ==> p <= q
  {
    if id in book && book[id] != [] then book[id][0] else 0
  }

  /** The buy cost: the market price, Unavailable when it is 0. */
  function BuyCost(book: PriceBook, id: int): (c: Cost)
    ensures c.Unavailable? <==> MarketPrice(book, id) == 0
    ensures c.Finite? ==> c.value == MarketPrice(book, id)
  {
    var price := MarketPrice(book, id);
    if price > 0 then Finite(price) else Unavailable
  }

  /** The price shown for a material: its cost, 0 when Unavailable. */
  function Shown(c: Cost): nat {
    match c
    case Finite(x) => x
    case Unavailable => 0
  }

  function StatusOf(node: CostNode): Status {
    if node.cost.Unavailable? then OutOfStock
    else if node.source == Crafted then ShownCrafted
    else ShownBought
  }

  /** `price * amount`: what `amount` units cost at `price` each. */
  function Subtotal(price: nat, amount: nat): nat {
    price * amount
  }

  function LineFor(m: Ingredient, node: CostNode): MaterialLine {
    var price := Shown(node.cost);
    MaterialLine(m.id, m.amount, price, Subtotal(price, m.amount), StatusOf(node), node.materials)
  }

  /** Levels of recursion still allowed at `depth`. */
  function Remaining(depth: nat): nat {
    if depth < MaxRecursionDepth then MaxRecursionDepth - depth else 0
  }

  function MaxNat(a: nat, b: nat): nat { if a < b then b else a }

  /** Nesting depth of a material breakdown. */
  function Height(lines: seq<MaterialLine>): nat {
    if lines == [] then 0
    else MaxNat(Height(lines[..|lines| - 1]), 1 + Height(lines[|lines| - 1].subMaterials))
  }

  lemma HeightSnoc(lines: seq<MaterialLine>, l: MaterialLine)
    ensures Height(lines + [l]) == MaxNat(Height(lines), 1 + Height(l.subMaterials))
  {
    assert (lines + [l])[..|lines|] == lines;
  }

  // ---------------------------------------------------------------------
  // The recursive cost (`_calculate_cost_recursive`) as a specification.
  // ---------------------------------------------------------------------

  /** The cost node for `id` reached with `visited` on the current path at
      `depth`. Revisits and the depth ceiling are buy-only; an item without a
      recipe is bought; otherwise crafting wins only when strictly cheaper. */
  function Resolve(g: RecipeGraph, book: PriceBook, id: int, visited: set<int>, depth: nat): (r: CostNode)
    ensures r.source == Bought ==> r.cost == BuyCost(book, id) && r.materials == []
    ensures r.source == Crafted ==> r.cost.Finite? && Less(r.cost, BuyCost(book, id))
    decreases Remaining(depth), 2, 0
  {
    var buy := BuyCost(book, id);
    if id in visited || depth >= MaxRecursionDepth then CostNode(buy, [], Bought)
    else if id !in g then CostNode(buy, [], Bought)
    else
      var craft := CraftPrefix(g, book, g[id], visited + {id}, depth + 1);
      if Less(craft.cost, buy) then CostNode(craft.cost, craft.lines, Crafted)
      else CostNode(buy, [], Bought)
  }

  /** The breakdown of a cost node is never deeper than the levels the depth
      ceiling leaves, so the recursion is bounded by `MAX_RECURSION_DEPTH`. */
  lemma {:induction false} ResolveHeight(g: RecipeGraph, book: PriceBook, id: int, visited: set<int>, depth: nat)
    ensures Height(Resolve(g, book, id, visited, depth).materials) <= Remaining(depth)
    decreases Remaining(depth), 2, 0
  {
    if id !in visited && depth < MaxRecursionDepth && id in g {
      CraftPrefixHeight(g, book, g[id], visited + {id}, depth + 1);
    }
  }

  /** The lines kept by the craft loop are at most one level deeper than the
      nodes they come from. */
  lemma {:induction false} CraftPrefixHeight(g: RecipeGraph, book: PriceBook, mats: seq<Ingredient>, visited: set<int>, depth: nat)
    ensures Height(CraftPrefix(g, book, mats, visited, depth).lines) <= Remaining(depth) + 1
    decreases Remaining(depth) + 1, 1, |mats|
  {
    if mats != [] {
      var n := |mats| - 1;
      CraftPrefixHeight(g, book, mats[..n], visited, depth);
      var prev := CraftPrefix(g, book, mats[..n], visited, depth);
      var sub := Resolve(g, book, mats[n].id, visited, depth);
      if prev.cost.Finite? && sub.cost.Finite? {
        ResolveHeight(g, book, mats[n].id, visited, depth);
        HeightSnoc(prev.lines, LineFor(mats[n], sub));
      }
    }
  }

  /** The material lines of `mats`, each costed independently with the same
      `visited` set (the copy each child receives). */
  function MaterialLines(g: RecipeGraph, book: PriceBook, mats: seq<Ingredient>, visited: set<int>, depth: nat): (r: seq<MaterialLine>)
    ensures |r| == |mats|
    decreases Remaining(depth) + 1, 0, 0
  {
    seq(|mats|, k requires 0 <= k < |mats| => LineFor(mats[k], Resolve(g, book, mats[k].id, visited, depth)))
  }

  lemma MaterialLinesSnoc(g: RecipeGraph, book: PriceBook, mats: seq<Ingredient>, visited: set<int>, depth: nat)
    requires mats != []
    ensures MaterialLines(g, book, mats, visited, depth) ==
            MaterialLines(g, book, mats[..|mats| - 1], visited, depth)
            + [LineFor(mats[|mats| - 1], Resolve(g, book, mats[|mats| - 1].id, visited, depth))]
  {
    var n := |mats| - 1;
    var a := MaterialLines(g, book, mats, visited, depth);
    var b := MaterialLines(g, book, mats[..n], visited, depth);
    var l := LineFor(mats[n], Resolve(g, book, mats[n].id, visited, depth));
    forall k | 0 <= k < n ensures a[k] == b[k] {
      assert mats[..n][k] == mats[k];
    }
    assert a == b + [l];
  }

  /** The craft loop over the first `|mats|` materials: it stops at the first
      Unavailable material, otherwise it adds cost times amount and keeps the
      line. */
  function CraftPrefix(g: RecipeGraph, book: PriceBook, mats: seq<Ingredient>, visited: set<int>, depth: nat): (c: Craft)
    decreases Remaining(depth) + 1, 1, |mats|
  {
    if mats == [] then Craft(Finite(0), [])
    else
      var n := |mats| - 1;
      var prev := CraftPrefix(g, book, mats[..n], visited, depth);
      if prev.cost.Unavailable? then prev
      else
        var sub := Resolve(g, book, mats[n].id, visited, depth);
        if sub.cost.Unavailable? then Craft(Unavailable, prev.lines)
        else
          var line := LineFor(mats[n], sub);
          Craft(Finite(prev.cost.value + Subtotal(sub.cost.value, mats[n].amount)), prev.lines + [line])
  }

  /** One step of the craft loop on an available material: its cost times
      its amount is added and its line kept. */
  lemma CraftPrefixAdds(g: RecipeGraph, book: PriceBook, mats: seq<Ingredient>, visited: set<int>, depth: nat, i: nat)
    requires i < |mats|
    requires CraftPrefix(g, book, mats[..i], visited, depth).cost.Finite?
    requires Resolve(g, book, mats[i].id, visited, depth).cost.Finite?
    ensures
      var prev := CraftPrefix(g, book, mats[..i], visited, depth);
      var sub := Resolve(g, book, mats[i].id, visited, depth);
      CraftPrefix(g, book, mats[..i + 1], visited, depth) ==
        Craft(Finite(prev.cost.value + Subtotal(sub.cost.value, mats[i].amount)), prev.lines + [LineFor(mats[i], sub)])
  {
    assert mats[..i + 1][..i] == mats[..i];
  }

  /** One step of the craft loop on an Unavailable material: the craft
      becomes Unavailable and keeps the lines so far. */
  lemma CraftPrefixStops(g: RecipeGraph, book: PriceBook, mats: seq<Ingredient>, visited: set<int>, depth: nat, i: nat)
    requires i < |mats|
    requires CraftPrefix(g, book, mats[..i], visited, depth).cost.Finite?
    requires Resolve(g, book, mats[i].id, visited, depth).cost.Unavailable?
    ensures CraftPrefix(g, book, mats[..i + 1], visited, depth) ==
              Craft(Unavailable, CraftPrefix(g, book, mats[..i], visited, depth).lines)
  {
    assert mats[..i + 1][..i] == mats[..i];
  }

  /** One step of the top-level loop. */
  lemma TopLevelSnoc(g: RecipeGraph, book: PriceBook, mats: seq<Ingredient>, i: nat)
    requires i < |mats|
    ensures
      var sub := Resolve(g, book, mats[i].id, {}, 0);
      && MaterialsTotal(g, book, mats[..i + 1], {}, 0) == MaterialsTotal(g, book, mats[..i], {}, 0) + Subtotal(Shown(sub.cost), mats[i].amount)
      && AnyUnavailable(g, book, mats[..i + 1], {}, 0) == (AnyUnavailable(g, book, mats[..i], {}, 0) || sub.cost.Unavailable?)
      && MaterialLines(g, book, mats[..i + 1], {}, 0) == MaterialLines(g, book, mats[..i], {}, 0) + [LineFor(mats[i], sub)]
  {
    assert mats[..i + 1][..i] == mats[..i];
    MaterialLinesSnoc(g, book, mats[..i + 1], {}, 0);
  }

  /** While the craft loop has met no Unavailable material, its lines are the
      material lines of the materials seen so far. */
  lemma {:induction false} CraftPrefixLines(g: RecipeGraph, book: PriceBook, mats: seq<Ingredient>, visited: set<int>, depth: nat)
    ensures CraftPrefix(g, book, mats, visited, depth).cost.Finite? ==>
              CraftPrefix(g, book, mats, visited, depth).lines == MaterialLines(g, book, mats, visited, depth)
    decreases |mats|
  {
    if mats != [] {
      CraftPrefixLines(g, book, mats[..|mats| - 1], visited, depth);
      MaterialLinesSnoc(g, book, mats, visited, depth);
    }
  }

  /** Some material of `mats` resolves to Unavailable. */
  function AnyUnavailable(g: RecipeGraph, book: PriceBook, mats: seq<Ingredient>, visited: set<int>, depth: nat): (b: bool)
    ensures b <==> exists j :: 0 <= j < |mats| && Resolve(g, book, mats[j].id, visited, depth).cost.Unavailable?
  {
    if mats == [] then false
    else
      var n := |mats| - 1;
      assert forall j :: 0 <= j < n ==> mats[..n][j] == mats[j];
      AnyUnavailable(g, book, mats[..n], visited, depth) || Resolve(g, book, mats[n].id, visited, depth).cost.Unavailable?
  }

  /** The sum of shown price times amount over `mats`. */
  function MaterialsTotal(g: RecipeGraph, book: PriceBook, mats: seq<Ingredient>, visited: set<int>, depth: nat): nat {
    if mats == [] then 0
    else
      var n := |mats| - 1;
      MaterialsTotal(g, book, mats[..n], visited, depth) + Subtotal(Shown(Resolve(g, book, mats[n].id, visited, depth).cost), mats[n].amount)
  }

  /** The craft cost, whatever the early exit: Unavailable exactly when some
      material is, otherwise the sum of material cost times amount. */
  function CraftCost(g: RecipeGraph, book: PriceBook, mats: seq<Ingredient>, visited: set<int>, depth: nat): Cost {
    if AnyUnavailable(g, book, mats, visited, depth) then Unavailable
    else Finite(MaterialsTotal(g, book, mats, visited, depth))
  }

  /** Stopping at the first Unavailable material gives the same craft cost
      as looking at them all. */
  lemma {:induction false} CraftPrefixCost(g: RecipeGraph, book: PriceBook, mats: seq<Ingredient>, visited: set<int>, depth: nat)
    ensures CraftPrefix(g, book, mats, visited, depth).cost == CraftCost(g, book, mats, visited, depth)
    decreases |mats|
  {
    if mats != [] {
      CraftPrefixCost(g, book, mats[..|mats| - 1], visited, depth);
    }
  }

  /** The whole make-or-buy decision for one item. */
  lemma ResolveDecision(g: RecipeGraph, book: PriceBook, id: int, visited: set<int>, depth: nat)
    ensures id in visited || depth >= MaxRecursionDepth || id !in g ==>
              Resolve(g, book, id, visited, depth) == CostNode(BuyCost(book, id), [], Bought)
    ensures id !in visited && depth < MaxRecursionDepth && id in g ==>
              var craft := CraftCost(g, book, g[id], visited + {id}, depth + 1);
              var buy := BuyCost(book, id);
              Resolve(g, book, id, visited, depth) ==
                if Less(craft, buy)
                then CostNode(craft, MaterialLines(g, book, g[id], visited + {id}, depth + 1), Crafted)
                else CostNode(buy, [], Bought)
  {
    if id !in visited && depth < MaxRecursionDepth && id in g {
      var v, d := visited + {id}, depth + 1;
      var c := CraftPrefix(g, book, g[id], v, d);
      CraftPrefixCost(g, book, g[id], v, d);
      CraftPrefixLines(g, book, g[id], v, d);
      assert c.cost == CraftCost(g, book, g[id], v, d);
      assert Resolve(g, book, id, visited, depth) ==
        if Less(c.cost, BuyCost(book, id)) then CostNode(c.cost, c.lines, Crafted)
        else CostNode(BuyCost(book, id), [], Bought);
    }
  }

  /** Ties go to buying: when crafting costs exactly what buying costs,
      including both Unavailable, the item is Bought with no breakdown. */
  lemma TieGoesToBuying(g: RecipeGraph, book: PriceBook, id: int, visited: set<int>, depth: nat)
    requires id !in visited && depth < MaxRecursionDepth && id in g
    requires CraftCost(g, book, g[id], visited + {id}, depth + 1) == BuyCost(book, id)
    ensures Resolve(g, book, id, visited, depth) == CostNode(BuyCost(book, id), [], Bought)
  {
    ResolveDecision(g, book, id, visited, depth);
  }

  /** An Unavailable ingredient closes the craft path of its parent. */
  lemma UnavailableIngredientBlocksCrafting(g: RecipeGraph, book: PriceBook, id: int, visited: set<int>, depth: nat, j: nat)
    requires id !in visited && depth < MaxRecursionDepth && id in g
    requires j < |g[id]| && Resolve(g, book, g[id][j].id, visited + {id}, depth + 1).cost.Unavailable?
    ensures Resolve(g, book, id, visited, depth) == CostNode(BuyCost(book, id), [], Bought)
  {
    ResolveDecision(g, book, id, visited, depth);
  }

  /** Crafting is chosen exactly when every ingredient is available and the
      sum of their costs is strictly below the buy cost. */
  lemma CraftedIffStrictlyCheaper(g: RecipeGraph, book: PriceBook, id: int, visited: set<int>, depth: nat)
    ensures Resolve(g, book, id, visited, depth).source == Crafted <==>
              && id !in visited && depth < MaxRecursionDepth && id in g
              && !AnyUnavailable(g, book, g[id], visited + {id}, depth + 1)
              && Less(Finite(MaterialsTotal(g, book, g[id], visited + {id}, depth + 1)), BuyCost(book, id))
  {
    ResolveDecision(g, book, id, visited, depth);
  }

  // ---------------------------------------------------------------------
  // The id collection (`_get_full_recipe_tree`) as a specification.
  // ---------------------------------------------------------------------

  /** The ids reachable from `id` by following recipes fewer than `k` levels. */
  ghost function Reach(g: RecipeGraph, id: int, k: nat): set<int>
    decreases k, 0, 0
  {
    if k == 0 then {}
    else {id} + (if id in g then ReachAll(g, g[id], k - 1) else {})
  }

  ghost function ReachAll(g: RecipeGraph, mats: seq<Ingredient>, k: nat): set<int>
    decreases k, 1, |mats|
  {
    if mats == [] then {}
    else ReachAll(g, mats[..|mats| - 1], k) + Reach(g, mats[|mats| - 1].id, k)
  }

  /** `(all_ids_set, visited_set)` after `_get_full_recipe_tree(id, ...)`:
      the root is added unless already visited or at the ceiling, nothing
      visited is expanded again, both sets only grow and gain the same ids,
      and every new id is reachable from the root within the levels left. */
  function Collected(g: RecipeGraph, id: int, all: set<int>, visited: set<int>, depth: nat): (r: (set<int>, set<int>))
    ensures id in visited || depth >= MaxRecursionDepth ==> r == (all, visited)
    ensures id !in visited && depth < MaxRecursionDepth ==> id in r.0 && id in r.1
    ensures visited <= r.1 && r.0 == all + (r.1 - visited)
    ensures r.1 - visited <= Reach(g, id, Remaining(depth))
    decreases Remaining(depth), 1, 0
  {
    if id in visited || depth >= MaxRecursionDepth then (all, visited)
    else if id !in g then (all + {id}, visited + {id})
    else CollectedAll(g, g[id], all + {id}, visited + {id}, depth + 1)
  }

  /** The collection over the materials of one recipe, threading the shared
      sets from one material to the next. */
  function CollectedAll(g: RecipeGraph, mats: seq<Ingredient>, all: set<int>, visited: set<int>, depth: nat): (r: (set<int>, set<int>))
    ensures visited <= r.1 && r.0 == all + (r.1 - visited)
    ensures depth > 0 ==> r.1 - visited <= ReachAll(g, mats, Remaining(depth))
    decreases Remaining(depth) + 1, 0, |mats|
  {
    if mats == [] then (all, visited)
    else
      var p := CollectedAll(g, mats[..|mats| - 1], all, visited, depth);
      Collected(g, mats[|mats| - 1].id, p.0, p.1, depth)
  }

  // ---------------------------------------------------------------------
  // The top-level report (`get_crafting_data`) as a specification.
  // ---------------------------------------------------------------------

  /** The batch reply: the market entries of the requested ids. */
  function Fetched(market: PriceBook, ids: set<int>): (r: PriceBook)
    ensures r.Keys == market.Keys * ids
    ensures forall id :: id in r ==> r[id] == market[id]
  {
    map id | id in market && id in ids :: market[id]
  }

  /** The report for an item with a recipe, given the fetched prices: every
      direct material is costed with a fresh visited set at depth 0. */
  function Report(g: RecipeGraph, book: PriceBook, itemId: int): CraftingResult
    requires itemId in g
  {
    var mats := g[itemId];
    var craftable := !AnyUnavailable(g, book, mats, {}, 0);
    var total := MaterialsTotal(g, book, mats, {}, 0);
    var productPrice := MarketPrice(book, itemId);
    var profit := if productPrice > 0 && craftable then productPrice - total else 0;
    Success(if craftable then total else 0, productPrice, profit, MaterialLines(g, book, mats, {}, 0))
  }

  /** Every direct material of the report shows its cost, 0 and out of stock
      when it is Unavailable; an Unavailable material zeroes the total cost;
      a profit is only reported for a fully available item with a market
      price, and it is that price less the total cost. */
  lemma ReportSpec(g: RecipeGraph, book: PriceBook, itemId: int)
    requires itemId in g
    ensures var r := Report(g, book, itemId);
      r.Success? && |r.materials| == |g[itemId]|
    ensures var r := Report(g, book, itemId);
            forall k :: 0 <= k < |g[itemId]| ==>
              var node := Resolve(g, book, g[itemId][k].id, {}, 0);
              && (node.cost.Unavailable? ==> r.materials[k].price == 0 && r.materials[k].status == OutOfStock)
              && (node.cost.Finite? ==> r.materials[k].price == node.cost.value && r.materials[k].status != OutOfStock)
    ensures var r := Report(g, book, itemId);
            (exists k :: 0 <= k < |g[itemId]| && Resolve(g, book, g[itemId][k].id, {}, 0).cost.Unavailable?) ==>
              r.totalCost == 0
    ensures var r := Report(g, book, itemId);
            r.profit != 0 ==>
              && r.productPrice > 0
              && (forall k :: 0 <= k < |g[itemId]| ==> Resolve(g, book, g[itemId][k].id, {}, 0).cost.Finite?)
              && r.profit == r.productPrice - r.totalCost
  {
  }

  /** The PriceBook collaborator: `fetch_market_data_batch` for one server.
      It answers with the market entries of the requested ids and a status
      code, and records every request it receives. */
  class PriceBookClient {
    const market: PriceBook
    const status: int
    ghost var requests: seq<set<int>>

    constructor (market: PriceBook, status: int)
      ensures this.market == market && this.status == status && requests == []
    {
      this.market := market;
      this.status := status;
      requests := [];
    }

    method FetchBatch(ids: set<int>) returns (data: PriceBook, code: int)
      modifies this`requests
      ensures data == Fetched(market, ids) && code == status
      ensures requests == old(requests) + [ids]
    {
      data := map id | id in market && id in ids :: market[id];
      code := status;
      requests := requests + [ids];
    }
  }

  class CraftingService {
    /** The recipes of the recipe provider. */
    const recipes: RecipeGraph
    /** `_no_recipe_cache`: ids known to have no recipe. */
    var noRecipeCache: set<int>

    constructor (recipes: RecipeGraph)
      ensures this.recipes == recipes && noRecipeCache == {}
    {
      this.recipes := recipes;
      noRecipeCache := {};
    }

    /** `get_crafting_data`: a cached or newly found missing recipe answers
        NoRecipe without asking the market; otherwise the ids of the recipe
        tree are fetched in one batch, a failed batch answers with its status
        code, and a successful one gives the report. */
    method GetCraftingData(itemId: int, api: PriceBookClient) returns (res: CraftingResult)
      modifies this`noRecipeCache, api`requests
      ensures itemId in old(noRecipeCache) ==>
                res == NoRecipe && noRecipeCache == old(noRecipeCache) && api.requests == old(api.requests)
      ensures itemId !in old(noRecipeCache) && itemId !in recipes ==>
                res == NoRecipe && noRecipeCache == old(noRecipeCache) + {itemId} && api.requests == old(api.requests)
      ensures itemId !in old(noRecipeCache) && itemId in recipes ==>
                var ids := Collected(recipes, itemId, {}, {}, 0).0;
                && noRecipeCache == old(noRecipeCache)
                && api.requests == old(api.requests) + [ids]
                && res == if api.status != StatusOk then ApiError(api.status)
                          else Report(recipes, Fetched(api.market, ids), itemId)
    {
      if itemId in noRecipeCache {
        return NoRecipe;
      }
      if itemId !in recipes {
        noRecipeCache := noRecipeCache + {itemId};
        return NoRecipe;
      }
      var allIds, _ := CollectTree(itemId, {}, {}, 0);
      var marketData, statusCode := api.FetchBatch(allIds);
      if statusCode != StatusOk {
        return ApiError(statusCode);
      }
      res := BuildReport(itemId, marketData);
    }

    /** The top-level loop of `get_crafting_data` once the batch succeeded:
        each direct material is costed from scratch, an Unavailable one is
        shown at price 0 and clears `is_craftable`, and the profit is only
        computed for a craftable item with a market price. */
    method BuildReport(itemId: int, marketData: PriceBook) returns (res: CraftingResult)
      requires itemId in recipes
      ensures res == Report(recipes, marketData, itemId)
    {
      var topMaterials := recipes[itemId];
      var totalCraftCost: nat := 0;
      var lines: seq<MaterialLine> := [];
      var isCraftable := true;
      var i := 0;
      while i < |topMaterials|
        invariant 0 <= i <= |topMaterials|
        invariant totalCraftCost == MaterialsTotal(recipes, marketData, topMaterials[..i], {}, 0)
        invariant isCraftable == !AnyUnavailable(recipes, marketData, topMaterials[..i], {}, 0)
        invariant lines == MaterialLines(recipes, marketData, topMaterials[..i], {}, 0)
      {
        var mat := topMaterials[i];
        var sub := CalculateCost(mat.id, marketData, {}, 0);
        TopLevelSnoc(recipes, marketData, topMaterials, i);
        if sub.cost.Unavailable? {
          isCraftable := false;
        }
        var line := LineFor(mat, sub);
        totalCraftCost := totalCraftCost + line.subtotal;
        lines := lines + [line];
        i := i + 1;
      }
      assert topMaterials[..i] == topMaterials;
      var productPrice := MarketPrice(marketData, itemId);
      var profit := 0;
      if productPrice > 0 && isCraftable {
        profit := productPrice - totalCraftCost;
      }
      res := Success(if isCraftable then totalCraftCost else 0, productPrice, profit, lines);
    }

    /** `_get_full_recipe_tree`: adds the ids of the tree below `itemId` to
        the shared sets. */
    method CollectTree(itemId: int, allIds: set<int>, visited: set<int>, depth: nat)
      returns (allIds': set<int>, visited': set<int>)
      ensures (allIds', visited') == Collected(recipes, itemId, allIds, visited, depth)
      decreases Remaining(depth)
    {
      if itemId in visited || depth >= MaxRecursionDepth {
        return allIds, visited;
      }
      visited' := visited + {itemId};
      allIds' := allIds + {itemId};
      if itemId !in recipes {
        return;
      }
      var mats := recipes[itemId];
      var i := 0;
      while i < |mats|
        invariant 0 <= i <= |mats|
        invariant (allIds', visited') == CollectedAll(recipes, mats[..i], allIds + {itemId}, visited + {itemId}, depth + 1)
      {
        assert mats[..i + 1][..i] == mats[..i];
        allIds', visited' := CollectTree(mats[i].id, allIds', visited', depth + 1);
        i := i + 1;
      }
      assert mats[..i] == mats;
    }

    /** `_calculate_cost_recursive`: the cost node of `itemId` on a path that
        has already visited `visited`. */
    method CalculateCost(itemId: int, book: PriceBook, visited: set<int>, depth: nat) returns (node: CostNode)
      ensures node == Resolve(recipes, book, itemId, visited, depth)
      decreases Remaining(depth), 1
    {
      var buyCost := BuyCost(book, itemId);
      if itemId in visited || depth >= MaxRecursionDepth {
        return CostNode(buyCost, [], Bought);
      }
      if itemId !in recipes {
        return CostNode(buyCost, [], Bought);
      }
      var craft := CraftMaterials(recipes[itemId], book, visited + {itemId}, depth + 1);
      if Less(craft.cost, buyCost) {
        node := CostNode(craft.cost, craft.lines, Crafted);
      } else {
        node := CostNode(buyCost, [], Bought);
      }
    }

    /** The craft loop of `_calculate_cost_recursive`: each material is costed
        with the path's visited set, the first Unavailable one breaks the loop,
        and the others add cost times amount and keep their line. */
    method CraftMaterials(mats: seq<Ingredient>, book: PriceBook, seen: set<int>, depth: nat) returns (craft: Craft)
      requires depth > 0
      ensures craft == CraftPrefix(recipes, book, mats, seen, depth)
      decreases Remaining(depth) + 1, 0
    {
      var craftCost: nat := 0;
      var details: seq<MaterialLine> := [];
      var i := 0;
      while i < |mats|
        invariant 0 <= i <= |mats|
        invariant CraftPrefix(recipes, book, mats[..i], seen, depth) == Craft(Finite(craftCost), details)
      {
        var sub := CalculateCost(mats[i].id, book, seen, depth);
        if sub.cost.Unavailable? {
          CraftPrefixStops(recipes, book, mats, seen, depth, i);
          CraftPrefixStaysUnavailable(recipes, book, mats, seen, depth, i + 1);
          return Craft(Unavailable, details);
        }
        CraftPrefixAdds(recipes, book, mats, seen, depth, i);
        craftCost := craftCost + Subtotal(sub.cost.value, mats[i].amount);
        details := details + [LineFor(mats[i], sub)];
        i := i + 1;
      }
      assert mats[..i] == mats;
      craft := Craft(Finite(craftCost), details);
    }
  }

  /** Once the craft loop has met an Unavailable material, the rest of the
      materials do not change that. */
  lemma {:induction false} CraftPrefixStaysUnavailable(g: RecipeGraph, book: PriceBook, mats: seq<Ingredient>, visited: set<int>, depth: nat, k: nat)
    requires k <= |mats|
    requires CraftPrefix(g, book, mats[..k], visited, depth).cost.Unavailable?
    ensures CraftPrefix(g, book, mats, visited, depth) == CraftPrefix(g, book, mats[..k], visited, depth)
    decreases |mats| - k
  {
    if k < |mats| {
      assert mats[..k + 1][..k] == mats[..k];
      CraftPrefixStaysUnavailable(g, book, mats, visited, depth, k + 1);
    } else {
      assert mats[..k] == mats;
    }
  }
}
