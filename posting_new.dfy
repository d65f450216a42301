/**
 * The new inventory count: a setup step, then a counting step in which a
 * record from item id to counted quantity starts at the on-hand figures
 * and is edited item by item.
 */
module PostingNew {
  import opened Domain

  datatype Step = Setup | Counting

  /** What an item's count input holds: nothing, or a number. */
  datatype Entry = Empty | Value(x: real)

  /** The ids of the inventory items. */
  function IdSet(inventory: seq<InventoryItem>): (r: set<string>)
    ensures forall j :: 0 <= j < |inventory| ==> inventory[j].id in r
    ensures forall k :: k in r ==> exists j :: 0 <= j < |inventory| && inventory[j].id == k
  {
    set j | 0 <= j < |inventory| :: inventory[j].id
  }

  predicate UniqueIds(inventory: seq<InventoryItem>)
  {
    forall i, j :: 0 <= i < j < |inventory| ==> inventory[i].id != inventory[j].id
  }

  /** There are at most as many ids as items, and exactly as many when they are unique. */
  lemma {:induction false} IdSetSize(inventory: seq<InventoryItem>)
    ensures |IdSet(inventory)| <= |inventory|
    ensures UniqueIds(inventory) ==> |IdSet(inventory)| == |inventory|
  {
    if |inventory| > 0 {
      var init := inventory[..|inventory| - 1];
      var last := inventory[|inventory| - 1];
      IdSetSize(init);
      IdSetSnoc(inventory);
      if UniqueIds(inventory) {
        assert last.id !in IdSet(init) by {
          forall j | 0 <= j < |init| ensures init[j].id != last.id {
            assert inventory[j].id != inventory[|inventory| - 1].id;
          }
        }
        assert UniqueIds(init) by {
          forall i, j | 0 <= i < j < |init| ensures init[i].id != init[j].id {
            assert inventory[i].id != inventory[j].id;
          }
        }
      }
    }
  }

  lemma IdSetSnoc(inventory: seq<InventoryItem>)
    requires |inventory| > 0
    ensures IdSet(inventory) == IdSet(inventory[..|inventory| - 1]) + {inventory[|inventory| - 1].id}
  {
    var init := inventory[..|inventory| - 1];
    forall k | k in IdSet(inventory) ensures k in IdSet(init) + {inventory[|inventory| - 1].id} {
      var j :| 0 <= j < |inventory| && inventory[j].id == k;
      if j < |inventory| - 1 {
        assert init[j].id == k;
      }
    }
  }

  /**
   * `Object.fromEntries(inventory.map(item => [item.id, item.onHand]))`:
   * one key per item id.
   */
  function InitialCounts(inventory: seq<InventoryItem>): (r: map<string, real>)
    ensures r.Keys == IdSet(inventory)
  {
    if |inventory| == 0 then map[]
    else
      IdSetSnoc(inventory);
      InitialCounts(inventory[..|inventory| - 1])[inventory[|inventory| - 1].id := inventory[|inventory| - 1].onHand]
  }

  /** Each key holds the on-hand figure of the last item with that id. */
  lemma {:induction false} InitialCountsValue(inventory: seq<InventoryItem>, j: nat)
    requires j < |inventory| && forall k :: j < k < |inventory| ==> inventory[k].id != inventory[j].id
    ensures InitialCounts(inventory)[inventory[j].id] == inventory[j].onHand
  {
    var n := |inventory| - 1;
    var init := inventory[..n];
    var last := inventory[n];
    if j < n {
      assert init[j] == inventory[j];
      InitialCountsValue(init, j);
      assert last.id != inventory[j].id;
    }
  }

  /** With unique ids every item starts at its on-hand figure. */
  lemma InitialCountsAreOnHand(inventory: seq<InventoryItem>)
    requires UniqueIds(inventory)
    ensures forall j :: 0 <= j < |inventory| ==> InitialCounts(inventory)[inventory[j].id] == inventory[j].onHand
  {
    forall j | 0 <= j < |inventory| ensures InitialCounts(inventory)[inventory[j].id] == inventory[j].onHand {
      InitialCountsValue(inventory, j);
    }
  }

  /** The number of counted items falls short of the inventory exactly when some item has no count. */
  lemma PartialIff(counts: set<string>, inventory: seq<InventoryItem>)
    requires counts <= IdSet(inventory) && UniqueIds(inventory)
    ensures |counts| < |inventory| <==> exists j :: 0 <= j < |inventory| && inventory[j].id !in counts
  {
    IdSetSize(inventory);
    var all := IdSet(inventory);
    assert |all| == |counts| + |all - counts| by {
      assert all == counts + (all - counts);
      assert counts * (all - counts) == {};
    }
    if |counts| < |inventory| {
      var k :| k in all - counts;
      var j :| 0 <= j < |inventory| && inventory[j].id == k;
    }
  }

  /** The page's state. */
  class CountSession {
    const inventory: seq<InventoryItem>
    var step: Step
    var frequency: string
    var countType: string
    var date: string
    var counts: map<string, real>

    /** Only inventory items are counted. */
    predicate Valid()
      reads this
    {
      counts.Keys <= IdSet(inventory)
    }

    /** The setup step, with every item's count at its on-hand figure. */
    constructor (inventory: seq<InventoryItem>, today: string)
      ensures this.inventory == inventory && step == Setup && frequency == "Weekly" && countType == "new"
      ensures date == today && counts == InitialCounts(inventory) && Valid()
    {
      this.inventory := inventory;
      step, frequency, countType, date := Setup, "Weekly", "new", today;
      counts := InitialCounts(inventory);
    }

    /** `handleContinue`. */
    method Continue()
      modifies this`step
      ensures step == Counting
    {
      step := Counting;
    }

    /** The back button of the counting step. */
    method Back()
      modifies this`step
      ensures step == Setup
    {
      step := Setup;
    }

    /**
     * An item's count input changed: an empty input drops the item's key,
     * a negative number is refused, any other number is stored.
     */
    method Edit(id: string, e: Entry)
      requires Valid() && id in IdSet(inventory)
      modifies this`counts
      ensures Valid()
      ensures e.Empty? ==> counts == old(counts) - {id}
      ensures e.Value? && e.x < 0.0 ==> counts == old(counts)
      ensures e.Value? && e.x >= 0.0 ==> counts == old(counts)[id := e.x]
      ensures forall k :: k != id ==> (k in counts <==> k in old(counts)) && (k in counts ==> counts[k] == old(counts)[k])
    {
      match e
      case Empty =>
        counts := counts - {id};
      case Value(x) =>
        if x >= 0.0 {
          counts := counts[id := x];
        }
    }

    /** "n of m items counted". */
    function Counted(): (n: nat)
      reads this
      ensures n == 0 <==> counts == map[]
    {
      |counts.Keys|
    }

    /** The partial-count warning. */
    function IsPartial(): (b: bool)
      reads this
      ensures b ==> |inventory| > 0
      ensures counts == map[] ==> (b <==> |inventory| > 0)
    {
      Counted() < |inventory|
    }

    /** Never more items are counted than the inventory holds. */
    lemma CountedAtMostInventory()
      requires Valid()
      ensures Counted() <= |inventory|
    {
      IdSetSize(inventory);
      assert |counts.Keys| <= |IdSet(inventory)| by {
        var all := IdSet(inventory);
        assert all == counts.Keys + (all - counts.Keys);
      }
    }

    /** With unique ids, the warning shows exactly when some item is uncounted. */
    lemma PartialWhenUncounted()
      requires Valid() && UniqueIds(inventory)
      ensures IsPartial() <==> exists j :: 0 <= j < |inventory| && inventory[j].id !in counts
    {
      PartialIff(counts.Keys, inventory);
    }
  }
}
