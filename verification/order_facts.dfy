/** Facts about the shipped display order: its keys, which of them have a
    DRI, and the units its rows are displayed in. */
module OrderFacts {
  import opened Wrappers
  import opened JsText
  import opened DriTables
  import opened Converter
  import opened OrderSets
  import opened OrderScan

  /** The display order has 38 rows, no two for the same nutrient. */
  lemma OrderKeysDistinct()
    ensures |NutrientOrder()| == 38
    ensures forall i, j | 0 <= i < j < |NutrientOrder()| :: NutrientOrder()[i].key != NutrientOrder()[j].key
  {
    forall i | 0 <= i < |NutrientOrder()| {
      RowCheckedAt(i);
    }
  }

  /** Every displayed nutrient is one of the 30 with a DRI or the 8 without. */
  lemma OrderKeysCovered()
    ensures forall i | 0 <= i < |NutrientOrder()| :: NutrientOrder()[i].key in BracketKeys + NoDriKeys
  {
    forall i | 0 <= i < |NutrientOrder()| {
      RowCheckedAt(i);
    }
  }

  /** The displayed nutrients are the 30 with a DRI and the 8 without. */
  lemma OrderKeysSplit()
    ensures OrderKeys(NutrientOrder()) == BracketKeys + NoDriKeys
  {
    OrderKeysCovered();
    KeysListed();
  }

  lemma DisplayUnitsKeys()
    ensures DisplayUnits.Keys == BracketKeys
  {
  }

  /** `DisplayUnits` holds the display order's units. */
  lemma DisplayUnitsMatchOrder()
    ensures DisplayUnits.Keys == BracketKeys
    ensures forall i | 0 <= i < |NutrientOrder()| && NutrientOrder()[i].key in DisplayUnits ::
      Some(DisplayUnits[NutrientOrder()[i].key]) == NutrientOrder()[i].defaultUnit
  {
    DisplayUnitsKeys();
    forall i | 0 <= i < |NutrientOrder()|
      ensures NutrientOrder()[i].key in DisplayUnits ==> Some(DisplayUnits[NutrientOrder()[i].key]) == NutrientOrder()[i].defaultUnit
    {
      RowCheckedAt(i);
    }
  }

  /** Every display-order row has a non-empty unit that does not start with a space. */
  lemma OrderUnitsPresent()
    ensures forall i | 0 <= i < |NutrientOrder()| ::
      NutrientOrder()[i].defaultUnit.Some? && |NutrientOrder()[i].defaultUnit.value| > 0 && NutrientOrder()[i].defaultUnit.value[0] != ' '
  {
    forall i | 0 <= i < |NutrientOrder()| {
      RowCheckedAt(i);
    }
  }

  /** So the converter's display token is never empty for a displayed
      nutrient: the prefix check cannot pass vacuously. */
  lemma OrderTokensNonEmpty()
    ensures forall i | 0 <= i < |NutrientOrder()| :: |TargetToken(NutrientOrder()[i].defaultUnit)| > 0
  {
    OrderUnitsPresent();
    forall i | 0 <= i < |NutrientOrder()|
      ensures |TargetToken(NutrientOrder()[i].defaultUnit)| > 0
    {
      UnitTokenNonEmpty(NutrientOrder()[i].defaultUnit.value);
    }
  }
}
