/** What the converter does against the shipped display order: which
    rescaling rules can fire, and in which unit each nutrient arrives. */
module ShippedUnits {
  import opened Wrappers
  import opened JsText
  import opened ProductData
  import opened DriTables
  import opened Converter
  import opened Locator
  import opened OrderSets
  import opened OrderFacts

  /** With distinct keys, looking up an entry's own key finds that entry. */
  lemma FindOrderEntryAt(order: seq<OrderEntry>, i: nat)
    requires i < |order|
    requires forall a, b | 0 <= a < b < |order| :: order[a].key != order[b].key
    ensures FindOrderEntry(order, order[i].key) == Some(order[i])
  {
  }

  /** The converter's display unit for a listed nutrient is its row's unit. */
  lemma ListedDisplayUnit(i: nat)
    requires i < |NutrientOrder()|
    ensures DefaultUnitOf(NutrientOrder(), NutrientOrder()[i].key) == NutrientOrder()[i].defaultUnit
  {
    OrderKeysDistinct();
    FindOrderEntryAt(NutrientOrder(), i);
  }

  lemma MassScaledFrom0(i: nat)
    requires i < 19 && NutrientOrder()[i].key in MassScaledKeys
    ensures NutrientOrder()[i].defaultUnit == Some(if NutrientOrder()[i].key == "Manganese" then "mg" else "mcg")
  {
  }

  lemma MassScaledFrom19(i: nat)
    requires 19 <= i < |NutrientOrder()| && NutrientOrder()[i].key in MassScaledKeys
    ensures NutrientOrder()[i].defaultUnit == Some("mcg")
    ensures NutrientOrder()[i].key != "Manganese"
  {
  }

  /** The eight rescaled nutrients are displayed in mcg, except Manganese,
      which is displayed in mg. */
  lemma MassScaledDisplay(i: nat)
    requires i < |NutrientOrder()| && NutrientOrder()[i].key in MassScaledKeys
    ensures NutrientOrder()[i].defaultUnit == Some(if NutrientOrder()[i].key == "Manganese" then "mg" else "mcg")
  {
    if i < 19 {
      MassScaledFrom0(i);
    } else {
      MassScaledFrom19(i);
    }
  }

  lemma TokensDiffer()
    ensures !StartsWith("mg", "mcg") && !StartsWith("mcg", "mg")
    ensures !StartsWith("mcg", "iu") && !StartsWith("iu", "mcg")
  {
    assert "mg"[1] != "mcg"[1];
    assert "mcg"[0] != "iu"[0];
  }

  /** On the shipped order, a rescaled nutrient given in mg or mcg always
      arrives in its display unit: mg becomes mcg times 1000 for the seven
      displayed in mcg, mcg becomes mg over 1000 for Manganese, and a unit
      that already matches passes through. */
  lemma MassScaledOnShippedOrder(i: nat, x: real)
    requires i < |NutrientOrder()| && NutrientOrder()[i].key in MassScaledKeys
    ensures var key := NutrientOrder()[i].key;
      key != "Manganese" ==>
        ConvertToBaseUnit(NutrientOrder(), x, Some("mg"), key) == Some(Quantity(x * 1000.0, "mcg"))
        && ConvertToBaseUnit(NutrientOrder(), x, Some("mcg"), key) == Some(Quantity(x, "mcg"))
    ensures var key := NutrientOrder()[i].key;
      key == "Manganese" ==>
        ConvertToBaseUnit(NutrientOrder(), x, Some("mcg"), key) == Some(Quantity(x / 1000.0, "mg"))
        && ConvertToBaseUnit(NutrientOrder(), x, Some("mg"), key) == Some(Quantity(x, "mg"))
  {
    ListedDisplayUnit(i);
    MassScaledDisplay(i);
    TokenMg();
    TokenMcg();
    TokensDiffer();
  }

  /** 0.3 mg of Copper is shown as 300 mcg. */
  lemma CopperExample()
    ensures ConvertToBaseUnit(NutrientOrder(), 0.3, Some("mg"), "Copper") == Some(Quantity(300.0, "mcg"))
  {
    assert NutrientOrder()[6].key == "Copper";
    MassScaledOnShippedOrder(6, 0.3);
  }

  /** Vitamin D is displayed in IU: mcg is multiplied by 40, IU passes
      through, and the IU-to-mcg division never happens. */
  lemma VitaminDOnShippedOrder(x: real, u: string)
    ensures ConvertToBaseUnit(NutrientOrder(), x, Some("mcg"), VitaminD) == Some(Quantity(x * 40.0, "IU"))
    ensures ConvertToBaseUnit(NutrientOrder(), x, Some("IU"), VitaminD) == Some(Quantity(x, "IU"))
    ensures ConvertToBaseUnit(NutrientOrder(), x, Some(u), VitaminD).value.value in {x, x * 40.0}
  {
    assert NutrientOrder()[18].key == VitaminD && NutrientOrder()[18].defaultUnit == Some("IU");
    ListedDisplayUnit(18);
    TokenIU();
    TokenMcg();
    TokensDiffer();
    ConvertFollowsRules(x, u, VitaminD, Some("IU"));
  }

  /** Vitamin A is compared in IU: a unit starting with "iu" is reported as
      IU, any other unit passes through unchanged, and the value is never
      rescaled. */
  lemma VitaminAOnShippedOrder(x: real, u: string)
    ensures StartsWith(ToLower(u), "iu") ==>
      ConvertToBaseUnit(NutrientOrder(), x, Some(u), VitaminA) == Some(Quantity(x, "IU"))
    ensures !StartsWith(ToLower(u), "iu") ==>
      ConvertToBaseUnit(NutrientOrder(), x, Some(u), VitaminA) == Some(Quantity(x, u))
  {
    assert NutrientOrder()[14].key == VitaminA && NutrientOrder()[14].defaultUnit == Some("IU");
    ListedDisplayUnit(14);
    TokenIU();
    ConvertFollowsRules(x, u, VitaminA, Some("IU"));
  }

  /** A Manganese record in mg or mcg is located in mg, the display unit,
      whatever the DRI's unit. */
  lemma ManganeseLocatedInMg(record: NutritionRecord, x: real, u: string)
    requires Per100ml(record) == Some(Number(x)) && Get(record, "Units") == Some(Text(u))
    requires u == "mg" || u == "mcg"
    ensures FromRecord(record, "Manganese", "mg", NutrientOrder()) ==
      Some(Located(if u == "mg" then x else x / 1000.0, "mg"))
  {
    assert NutrientOrder()[10].key == "Manganese";
    MassScaledOnShippedOrder(10, x);
    var c := ConvertToBaseUnit(NutrientOrder(), x, Some(u), "Manganese");
    assert c == Some(Quantity(if u == "mg" then x else x / 1000.0, "mg"));
    TokenMg();
    assert SameUnitToken(c.value.unit, "mg");
  }
}
