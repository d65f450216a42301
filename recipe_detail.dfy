/**
 * The recipe editor: its ingredient lines, their cost, the cost of one
 * portion, the food-cost percentage against the menu price and the bands
 * the page colours and words it by.
 */
module RecipeDetail {
  import opened Wrappers
  import opened Lists
  import opened Domain

  datatype Ingredient = Ingredient(id: int, inventoryItemId: string, name: string, quantity: real, unit: string, unitCost: real)

  /** `{ ...ing, [field]: value }` for the field an input edits. */
  datatype IngredientPatch = IngredientPatch(
    inventoryItemId: Option<string>, name: Option<string>, quantity: Option<real>, unit: Option<string>, unitCost: Option<real>)

  // -------------------------------------------------------------- costing

  function LineCost(i: Ingredient): real
  {
    i.quantity * i.unitCost
  }

  /** `ingredients.reduce((sum, item) => sum + item.quantity * item.unitCost, 0)`. */
  function TotalCost(ings: seq<Ingredient>): (r: real)
    ensures (forall j :: 0 <= j < |ings| ==> ings[j].quantity >= 0.0 && ings[j].unitCost >= 0.0) ==> r >= 0.0
  {
    SumOf(ings, LineCost)
  }

  /** `yieldAmount > 0 ? totalCost / yieldAmount : 0`. */
  function CostPerPortion(totalCost: real, yieldAmount: real): (r: real)
    ensures yieldAmount > 0.0 ==> r * yieldAmount == totalCost
    ensures yieldAmount <= 0.0 ==> r == 0.0
  {
    if yieldAmount > 0.0 then totalCost / yieldAmount else 0.0
  }

  /** `menuPrice > 0 ? (costPerPortion / menuPrice) * 100 : 0`. */
  function FoodCostPercent(costPerPortion: real, menuPrice: real): (r: real)
    ensures menuPrice > 0.0 ==> r * menuPrice == costPerPortion * 100.0
    ensures menuPrice <= 0.0 ==> r == 0.0
  {
    if menuPrice > 0.0 then costPerPortion / menuPrice * 100.0 else 0.0
  }

  /** With a price and costs that are not negative, the percentage is not negative. */
  lemma FoodCostPercentNonNegative(ings: seq<Ingredient>, yieldAmount: real, menuPrice: real)
    requires forall j :: 0 <= j < |ings| ==> ings[j].quantity >= 0.0 && ings[j].unitCost >= 0.0
    ensures FoodCostPercent(CostPerPortion(TotalCost(ings), yieldAmount), menuPrice) >= 0.0
  {
    var t := TotalCost(ings);
    var c := CostPerPortion(t, yieldAmount);
    DivNonNegative(t, yieldAmount);
    DivNonNegative(c, menuPrice);
  }

  lemma DivNonNegative(a: real, b: real)
    requires a >= 0.0
    ensures b > 0.0 ==> a / b >= 0.0 && a / b * 100.0 >= 0.0
  {
  }

  // ---------------------------------------------------------------- bands

  /** The message under the bar. */
  datatype Message = SetMenuPrice | Excellent | Approaching | HighCost

  function MessageFor(p: real): (m: Message)
    ensures m == SetMenuPrice <==> p == 0.0
    ensures m == Excellent <==> p != 0.0 && p <= 28.0
    ensures m == Approaching <==> 28.0 < p <= 35.0
    ensures m == HighCost <==> p > 35.0
  {
    if p == 0.0 then SetMenuPrice else if p <= 28.0 then Excellent else if p <= 35.0 then Approaching else HighCost
  }

  /** The colour of the panel around it, and of the texts and the bar inside it. */
  datatype Tone = Emerald | Amber | Red | Muted

  /** The panel is muted exactly for a percentage that is not positive. */
  function PanelTone(p: real): (t: Tone)
    ensures t == Muted <==> p <= 0.0
  {
    if p > 0.0 && p <= 28.0 then Emerald
    else if p > 28.0 && p <= 35.0 then Amber
    else if p > 35.0 then Red
    else Muted
  }

  function TextTone(p: real): (t: Tone)
    ensures t != Muted
  {
    if p <= 28.0 then Emerald else if p <= 35.0 then Amber else Red
  }

  /** The message bands are ordered: a higher percentage never gets a milder message. */
  lemma MessageMonotone(p: real, q: real)
    requires 0.0 < p <= q
    ensures MessageFor(p) == HighCost ==> MessageFor(q) == HighCost
    ensures MessageFor(q) == Excellent ==> MessageFor(p) == Excellent
  {
  }

  /** For a positive percentage the panel, the texts and the message agree on the band. */
  lemma TonesAgreeWhenPositive(p: real)
    requires p > 0.0
    ensures PanelTone(p) == TextTone(p)
    ensures MessageFor(p) == Excellent <==> PanelTone(p) == Emerald
    ensures MessageFor(p) == Approaching <==> PanelTone(p) == Amber
    ensures MessageFor(p) == HighCost <==> PanelTone(p) == Red
  {
  }

  /** Below zero the panel is muted while the message still says excellent. */
  lemma NegativePercentMixedTones(p: real)
    requires p < 0.0
    ensures PanelTone(p) == Muted && TextTone(p) == Emerald && MessageFor(p) == Excellent
  {
  }

  /** `Math.min(foodCostPercent, 100)`. */
  function BarWidth(p: real): (w: real)
    ensures w <= 100.0 && w <= p
    ensures w == p || w == 100.0
  {
    if p < 100.0 then p else 100.0
  }

  // ---------------------------------------------------- ingredient lines

  /** `handleAddIngredient`, with `Date.now()` as the new id. */
  function AddedIngredient(ings: seq<Ingredient>, now: int): (r: seq<Ingredient>)
    ensures |r| == |ings| + 1 && r[..|ings|] == ings
    ensures r[|ings|] == Ingredient(now, "", "", 1.0, "EA", 0.0)
  {
    ings + [Ingredient(now, "", "", 1.0, "EA", 0.0)]
  }

  /** `{ ...ing, [field]: value }`: the id is kept; a field the patch supplies is replaced, the others stay. */
  function Patch(i: Ingredient, p: IngredientPatch): (r: Ingredient)
    ensures r.id == i.id
    ensures Overrides(p.inventoryItemId, i.inventoryItemId, r.inventoryItemId)
    ensures Overrides(p.name, i.name, r.name)
    ensures Overrides(p.quantity, i.quantity, r.quantity)
    ensures Overrides(p.unit, i.unit, r.unit)
    ensures Overrides(p.unitCost, i.unitCost, r.unitCost)
  {
    Ingredient(i.id, p.inventoryItemId.GetOr(i.inventoryItemId), p.name.GetOr(i.name),
               p.quantity.GetOr(i.quantity), p.unit.GetOr(i.unit), p.unitCost.GetOr(i.unitCost))
  }

  /** `handleUpdateIngredient`: every line with that id is patched; the others stay. */
  function UpdatedIngredient(ings: seq<Ingredient>, ingId: int, p: IngredientPatch): (r: seq<Ingredient>)
    ensures |r| == |ings|
    ensures forall j :: 0 <= j < |ings| ==> r[j] == if ings[j].id == ingId then Patch(ings[j], p) else ings[j]
  {
    MapWhere(ings, (i: Ingredient) => i.id == ingId, (i: Ingredient) => Patch(i, p))
  }

  /** The unit a line keeps when an item is picked: its own, unless it is empty or "-". */
  function KeptUnit(lineUnit: string, itemUnit: string): (u: string)
    ensures lineUnit != [] && lineUnit != "-" ==> u == lineUnit
    ensures lineUnit == [] || lineUnit == "-" ==> u == itemUnit
  {
    if lineUnit != [] && lineUnit != "-" then lineUnit else itemUnit
  }

  /**
   * `handleSelectInventoryItem`: an unknown item changes nothing; otherwise
   * the lines with that id take the item's id, name and cost.
   */
  function SelectedItem(ings: seq<Ingredient>, ingId: int, inventory: seq<InventoryItem>, itemId: string): (r: seq<Ingredient>)
    ensures |r| == |ings|
    ensures Find(inventory, (x: InventoryItem) => x.id == itemId).None? ==> r == ings
    ensures Find(inventory, (x: InventoryItem) => x.id == itemId).Some? ==>
      var item := Find(inventory, (x: InventoryItem) => x.id == itemId).value;
      forall j :: 0 <= j < |ings| ==>
        r[j] == if ings[j].id != ingId then ings[j]
                else ings[j].(inventoryItemId := item.id, name := item.name, unitCost := item.cost,
                              unit := KeptUnit(ings[j].unit, item.unit))
  {
    match Find(inventory, (x: InventoryItem) => x.id == itemId)
    case None => ings
    case Some(item) =>
      MapWhere(ings, (i: Ingredient) => i.id == ingId,
               (i: Ingredient) => i.(inventoryItemId := item.id, name := item.name, unitCost := item.cost,
                                     unit := KeptUnit(i.unit, item.unit)))
  }

  /** `handleRemoveIngredient`: the lines with that id go; the rest stay in order. */
  function RemovedIngredient(ings: seq<Ingredient>, ingId: int): (r: seq<Ingredient>)
    ensures forall i :: i in r <==> i in ings && i.id != ingId
  {
    Filter(ings, (i: Ingredient) => i.id != ingId)
  }

  /** Removing a line takes exactly that line's cost off the total. */
  lemma {:induction false} RemovedIngredientCost(ings: seq<Ingredient>, ingId: int)
    ensures TotalCost(RemovedIngredient(ings, ingId))
         == TotalCost(ings) - SumOf(Filter(ings, (i: Ingredient) => i.id == ingId), LineCost)
  {
    var keep := (i: Ingredient) => i.id != ingId;
    var drop := (i: Ingredient) => i.id == ingId;
    if |ings| > 0 {
      var last := ings[|ings| - 1];
      var init := ings[..|ings| - 1];
      assert ings == init + [last];
      RemovedIngredientCost(init, ingId);
      SumOfFilterAppend(init, last, keep, LineCost);
      SumOfFilterAppend(init, last, drop, LineCost);
    }
  }

  /** The lines the editor loads for the first sample recipe. */
  const BurgerLines: seq<Ingredient> := [
    Ingredient(1, "ITM-003", "Burger Patty (Prep)", 1.0, "EA", 1.85),
    Ingredient(2, "ITM-005", "Ground Beef 80/20", 0.25, "LB", 4.25),
    Ingredient(3, "ITM-006", "Romaine Lettuce", 0.1, "HD", 1.5)]

  /** The lines the editor loads for the second sample recipe. */
  const SaladLines: seq<Ingredient> := [
    Ingredient(1, "ITM-006", "Romaine Lettuce", 0.5, "HD", 1.5),
    Ingredient(2, "ITM-002", "Eggs, Large", 2.0, "EA", 0.25)]

  /** The ingredient lines an existing recipe opens with: fixed for RCP-001 and RCP-002, none otherwise. */
  function PresetLines(id: string): (r: seq<Ingredient>)
    ensures id == "RCP-001" ==> r == BurgerLines
    ensures id == "RCP-002" ==> r == SaladLines
    ensures id != "RCP-001" && id != "RCP-002" ==> r == []
  {
    if id == "RCP-001" then BurgerLines else if id == "RCP-002" then SaladLines else []
  }

  /** The two sample recipes open with a total cost of 3.0625 and 1.25. */
  lemma PresetCosts()
    ensures TotalCost(PresetLines("RCP-001")) == 3.0625
    ensures TotalCost(PresetLines("RCP-002")) == 1.25
  {
    var b := BurgerLines;
    assert b[..2][..1] == [b[0]] && b[..2] == b[..1] + [b[1]] && b[..3 - 1] == b[..2];
    assert SumOf(b[..1], LineCost) == 1.85;
    assert SumOf(b[..2], LineCost) == 1.85 + 1.0625;
    assert SumOf(b, LineCost) == 1.85 + 1.0625 + 0.15;
    var s := SaladLines;
    assert s[..1] == [s[0]];
    assert SumOf(s[..1], LineCost) == 0.75;
    assert SumOf(s, LineCost) == 0.75 + 0.5;
  }

  /** The recipe being edited. */
  class RecipeEditor {
    var name: string
    var category: string
    var yieldAmount: real
    var yieldUnit: string
    var menuPrice: real
    var ingredients: seq<Ingredient>

    /**
     * A new recipe, or the fields of the recipe with that id when it exists,
     * with the preset lines of the two sample recipes. An empty id loads nothing.
     */
    constructor (recipes: seq<Recipe>, id: string)
      ensures id == "new" ==> name == "New Recipe"
      ensures id == "new" || id == "" ==>
        name == (if id == "new" then "New Recipe" else "") && category == "Mains" && yieldAmount == 1.0
        && yieldUnit == "SRV" && menuPrice == 0.0 && ingredients == []
      ensures id != "new" && id != "" ==>
        match Find(recipes, (r: Recipe) => r.id == id)
        case None => name == "" && category == "Mains" && yieldAmount == 1.0 && yieldUnit == "SRV" && menuPrice == 0.0
                     && ingredients == []
        case Some(r) => name == r.name && category == r.category && yieldAmount == r.yieldAmount
                        && yieldUnit == r.yieldUnit && menuPrice == r.price && ingredients == PresetLines(id)
    {
      name := if id == "new" then "New Recipe" else "";
      category, yieldAmount, yieldUnit, menuPrice, ingredients := "Mains", 1.0, "SRV", 0.0, [];
      if id != "new" && id != "" {
        var existing := Find(recipes, (r: Recipe) => r.id == id);
        if existing.Some? {
          var r := existing.value;
          name, category, yieldAmount, yieldUnit, menuPrice := r.name, r.category, r.yieldAmount, r.yieldUnit, r.price;
          ingredients := PresetLines(id);
        }
      }
    }

    /** The percentage the panel shows. */
    function Percent(): real
      reads this
    {
      FoodCostPercent(CostPerPortion(TotalCost(ingredients), yieldAmount), menuPrice)
    }

    method AddIngredient(now: int)
      modifies this`ingredients
      ensures ingredients == AddedIngredient(old(ingredients), now)
    {
      ingredients := ingredients + [Ingredient(now, "", "", 1.0, "EA", 0.0)];
    }

    method UpdateIngredient(ingId: int, p: IngredientPatch)
      modifies this`ingredients
      ensures ingredients == UpdatedIngredient(old(ingredients), ingId, p)
    {
      ingredients := UpdatedIngredient(ingredients, ingId, p);
    }

    method SelectInventoryItem(ingId: int, inventory: seq<InventoryItem>, itemId: string)
      modifies this`ingredients
      ensures ingredients == SelectedItem(old(ingredients), ingId, inventory, itemId)
    {
      ingredients := SelectedItem(ingredients, ingId, inventory, itemId);
    }

    method RemoveIngredient(ingId: int)
      modifies this`ingredients
      ensures ingredients == RemovedIngredient(old(ingredients), ingId)
    {
      ingredients := RemovedIngredient(ingredients, ingId);
    }
  }
}
