/**
 * The recipes overview: how many inventory items there are of each type,
 * the mean of the positive food-cost percentages, and the recipe with the
 * highest cost.
 */
module Overview {
  import opened Wrappers
  import opened Lists
  import opened Domain
  import opened Money

  /** The number of inventory items of one type. */
  /** The number of items of that type: at most the inventory's size. */
  function CountOfType(inventory: seq<InventoryItem>, t: ItemType): (r: nat)
    ensures r <= |inventory|
  {
    |Filter(inventory, (i: InventoryItem) => i.itemType == t)|
  }

  /** Every item has exactly one of the three types, so the three counts add up to the inventory. */
  lemma {:induction false} CountsPartition(inventory: seq<InventoryItem>)
    ensures CountOfType(inventory, Raw) + CountOfType(inventory, Prep) + CountOfType(inventory, Menu) == |inventory|
  {
    if |inventory| > 0 {
      CountsPartition(inventory[1..]);
    }
  }

  function FoodCost(r: Recipe): real
  {
    r.foodCostPercent
  }

  /** The recipes whose food cost percentage is strictly positive. */
  function Positive(recipes: seq<Recipe>): (r: seq<Recipe>)
    ensures forall x :: x in r <==> x in recipes && x.foodCostPercent > 0.0
  {
    Filter(recipes, (x: Recipe) => x.foodCostPercent > 0.0)
  }

  /** "Avg Food Cost %": the mean over the positive percentages, or none ("-"). */
  function AverageFoodCost(recipes: seq<Recipe>): (r: Option<real>)
    ensures r.None? <==> forall j :: 0 <= j < |recipes| ==> recipes[j].foodCostPercent <= 0.0
    ensures r.Some? ==> r.value > 0.0
  {
    var vals := Positive(recipes);
    NoPositiveIff(recipes);
    if |vals| == 0 then None
    else
      var total := SumOf(vals, FoodCost);
      var n := |vals|;
      SumOfPositive(vals);
      Some(Mean(total, n))
  }

  /** With some positive percentage, the average times their number is their sum. */
  lemma AverageIsMean(recipes: seq<Recipe>)
    requires |Positive(recipes)| > 0
    ensures AverageFoodCost(recipes).Some?
    ensures IsMeanOf(AverageFoodCost(recipes).value, SumOf(Positive(recipes), FoodCost), |Positive(recipes)|)
  {
    var vals := Positive(recipes);
    var total := SumOf(vals, FoodCost);
    assert AverageFoodCost(recipes) == Some(Mean(total, |vals|));
  }

  lemma NoPositiveIff(recipes: seq<Recipe>)
    ensures |Positive(recipes)| == 0 <==> forall j :: 0 <= j < |recipes| ==> recipes[j].foodCostPercent <= 0.0
  {
    var vals := Positive(recipes);
    if |vals| == 0 {
      assert forall j :: 0 <= j < |recipes| ==> recipes[j] !in vals;
    } else {
      assert vals[0] in recipes;
    }
  }

  /** `m` times `n` is `total`: `m` is the mean of `n` values adding up to `total`. */
  predicate IsMeanOf(m: real, total: real, n: nat)
  {
    m * n as real == total
  }

  /** The mean of `n` values adding up to `total`. */
  function Mean(total: real, n: nat): (m: real)
    requires n > 0
    ensures IsMeanOf(m, total, n)
    ensures total > 0.0 ==> m > 0.0
  {
    total / n as real
  }

  lemma {:induction false} SumOfPositive(vals: seq<Recipe>)
    requires |vals| > 0 && forall j :: 0 <= j < |vals| ==> FoodCost(vals[j]) > 0.0
    ensures SumOf(vals, FoodCost) > 0.0
  {
    if |vals| > 1 {
      SumOfPositive(vals[..|vals| - 1]);
    }
  }

  /** What the card shows: `${avg.toFixed(1)}%`, with the rendering passed as `show`, or "-". */
  function AverageText(recipes: seq<Recipe>, show: real -> string): (r: string)
    ensures r == "-" <==> forall j :: 0 <= j < |recipes| ==> recipes[j].foodCostPercent <= 0.0
    ensures AverageFoodCost(recipes).Some? ==> r == show(AverageFoodCost(recipes).value) + "%"
  {
    match AverageFoodCost(recipes)
    case None => "-"
    case Some(a) =>
      var t := show(a) + "%";
      assert t[|t| - 1] == '%' != "-"[0];
      t
  }

  /**
   * `[...recipes].sort((a, b) => b.cost - a.cost)[0]`: the sort is stable,
   * so this is the first recipe of the highest cost.
   */
  function Highest(recipes: seq<Recipe>): (r: Option<Recipe>)
    ensures r.None? <==> |recipes| == 0
    ensures r.Some? ==> exists k :: (0 <= k < |recipes| && recipes[k] == r.value &&
                                     forall j :: 0 <= j < k ==> recipes[j].cost < r.value.cost)
    ensures r.Some? ==> forall j :: 0 <= j < |recipes| ==> recipes[j].cost <= r.value.cost
  {
    if |recipes| == 0 then None
    else
      match Highest(recipes[1..])
      case None => Some(recipes[0])
      case Some(h) =>
        if recipes[0].cost >= h.cost then Some(recipes[0])
        else
          assert forall j :: 1 <= j < |recipes| ==> recipes[j] == recipes[1..][j - 1];
          Some(h)
  }

  /** "Highest Cost Item": its name and cost, or "-" for no recipes. */
  function HighestText(recipes: seq<Recipe>): (t: string)
    ensures |recipes| == 0 <==> t == "-"
  {
    match Highest(recipes)
    case None => "-"
    case Some(h) => h.name + " ($" + Fixed2(h.cost) + ")"
  }
}
