/** The stock flags of the item lookup table: low below par, critical below half of par. */
module ItemLookup {
  import opened Domain

  /** `isLow`. */
  predicate IsLow(i: InventoryItem)
  {
    i.onHand < i.par
  }

  /** `isCritical`. */
  predicate IsCritical(i: InventoryItem)
  {
    i.onHand < i.par * 0.5
  }

  /** How the on-hand figure is styled. */
  datatype Styling = Plain | Amber | Red

  /** Red needs both flags, amber is low but not critical, otherwise plain. */
  function StylingOf(i: InventoryItem): (s: Styling)
    ensures s == Red <==> IsLow(i) && IsCritical(i)
    ensures s == Amber <==> IsLow(i) && !IsCritical(i)
    ensures s == Plain <==> !IsLow(i)
  {
    if IsLow(i) then (if IsCritical(i) then Red else Amber) else Plain
  }

  /** The indicator dot is drawn only for a low item. */
  predicate ShowsDot(i: InventoryItem)
  {
    IsLow(i)
  }

  /** With a non-negative par level, every critical item is also low, so it is drawn red. */
  lemma CriticalIsLow(i: InventoryItem)
    requires i.par >= 0.0 && IsCritical(i)
    ensures IsLow(i) && StylingOf(i) == Red
  {
  }

  /** With a negative par level an item can be critical and still be shown plain. */
  lemma NegativeParHidesCritical(i: InventoryItem)
    requires i.par == -2.0 && i.onHand == -1.5
    ensures IsCritical(i) && StylingOf(i) == Plain && !ShowsDot(i)
  {
  }
}
