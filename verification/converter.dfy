/** The unit converter: aligns a per-100 mL nutrient amount to the display
    unit of the nutrient's row in the display order. */
module Converter {
  import opened Wrappers
  import opened JsText
  import opened DriTables

  datatype Quantity = Quantity(value: real, unit: string)

  /** The nutrients rescaled between mg and mcg. */
  const MassScaledKeys: set<string> :=
    {"Copper", "Selenium", "Chromium", "Manganese", "Vitamin K", "Biotin", "Iodine", "Molybdenum"}

  const VitaminD := "Vitamin D (IU)"
  const VitaminA := "Vitamin A (IU)"

  /** The display unit's leading token, lower-cased; "" when the nutrient has
      no display-order row or the row has no unit. */
  function TargetToken(defaultUnit: Option<string>): string {
    match defaultUnit
    case Some(d) => UnitToken(d)
    case None => ""
  }

  /** The unit reported when no conversion is needed: the display unit,
      unless it is absent or empty. */
  function DisplayUnit(defaultUnit: Option<string>, unit: string): string {
    match defaultUnit
    case Some(d) => if d != "" then d else unit
    case None => unit
  }

  /** The values a conversion can produce from `value`. */
  function ScaledValues(value: real): set<real> {
    {value, value * 1000.0, value / 1000.0, value * 40.0, value / 40.0}
  }

  /** The converter with the display unit of the nutrient as a parameter:
      `None` only for an undefined unit; the value unchanged when the unit
      already starts with the display token; otherwise the fixed mg/mcg and
      Vitamin D rules, and the value and unit unchanged when none applies. */
  function ConvertTo(value: real, unit: Option<string>, key: string, defaultUnit: Option<string>): (r: Option<Quantity>)
    ensures r.None? <==> unit.None?
    ensures unit.Some? && StartsWith(ToLower(unit.value), TargetToken(defaultUnit)) ==>
      r == Some(Quantity(value, DisplayUnit(defaultUnit, unit.value)))
    ensures r.Some? ==> r.value.value in ScaledValues(value)
  {
    if unit.None? then None
    else
      var u := unit.value;
      var lower := ToLower(u);
      var token := TargetToken(defaultUnit);
      assert ' ' !in token;
      assert ' ' in "mcg rae";
      if StartsWith(lower, token) then Some(Quantity(value, DisplayUnit(defaultUnit, u)))
      else if key in MassScaledKeys && lower == "mg" && token == "mcg" then Some(Quantity(value * 1000.0, "mcg"))
      else if key in MassScaledKeys && lower == "mcg" && token == "mg" then Some(Quantity(value / 1000.0, "mg"))
      else if key == VitaminD && lower == "iu" && token == "mcg" then Some(Quantity(value / 40.0, "mcg"))
      else if key == VitaminD && lower == "mcg" && token == "iu" then Some(Quantity(value * 40.0, "IU"))
      else if key == VitaminD && lower == "iu" && token == "iu" then Some(Quantity(value, "IU"))
      else if key == VitaminD && lower == "mcg" && token == "mcg" then Some(Quantity(value, "mcg"))
      else if key == VitaminA && lower == "iu" && token == "mcg rae" then Some(Quantity(value * 0.3, "mcg RAE"))
      else if key == VitaminA && lower == "iu" && token == "iu" then Some(Quantity(value, "IU"))
      else if StartsWith(lower, token) then Some(Quantity(value, DisplayUnit(defaultUnit, u)))
      else Some(Quantity(value, u))
  }

  /** The display unit the order list gives `key`, if it lists it. */
  function DefaultUnitOf(order: seq<OrderEntry>, key: string): Option<string> {
    match FindOrderEntry(order, key)
    case Some(e) => e.defaultUnit
    case None => None
  }

  /** `convertToBaseUnit(value, unit, key)` against a display-order list:
      the display unit is the one of the first row listing `key`. */
  function ConvertToBaseUnit(order: seq<OrderEntry>, value: real, unit: Option<string>, key: string): (r: Option<Quantity>)
    ensures r.None? <==> unit.None?
    ensures unit.Some? && OrderIndex(order, key).None? ==> r == Some(Quantity(value, unit.value))
    ensures unit.Some? && OrderIndex(order, key).Some? && order[OrderIndex(order, key).value].defaultUnit == Some(unit.value)
      ==> r == Some(Quantity(value, unit.value))
    ensures r.Some? ==> r.value.value in ScaledValues(value)
  {
    ConvertTo(value, unit, key, DefaultUnitOf(order, key))
  }

  /** The rescaling rules as a table: the factor and resulting unit for a
      lower-cased product unit and a display token. */
  function ScalingRule(key: string, lower: string, token: string): Option<(real, string)> {
    if key in MassScaledKeys && lower == "mg" && token == "mcg" then Some((1000.0, "mcg"))
    else if key in MassScaledKeys && lower == "mcg" && token == "mg" then Some((1.0 / 1000.0, "mg"))
    else if key == VitaminD && lower == "iu" && token == "mcg" then Some((1.0 / 40.0, "mcg"))
    else if key == VitaminD && lower == "mcg" && token == "iu" then Some((40.0, "IU"))
    else None
  }

  /** The converter is the prefix check followed by the rule table: the
      Vitamin D identities, the Vitamin A branches and the second prefix
      check can never change its outcome. */
  lemma ConvertFollowsRules(value: real, u: string, key: string, defaultUnit: Option<string>)
    ensures ConvertTo(value, Some(u), key, defaultUnit) ==
      if StartsWith(ToLower(u), TargetToken(defaultUnit)) then Some(Quantity(value, DisplayUnit(defaultUnit, u)))
      else match ScalingRule(key, ToLower(u), TargetToken(defaultUnit))
        case Some((factor, scaled)) => Some(Quantity(value * factor, scaled))
        case None => Some(Quantity(value, u))
  {
    var lower := ToLower(u);
    var token := TargetToken(defaultUnit);
    assert ' ' !in token;
    assert token != "mcg rae" by {
      assert ' ' in "mcg rae";
    }
    if !StartsWith(lower, token) {
      assert !(lower == "iu" && token == "iu");
      assert !(lower == "mcg" && token == "mcg");
    }
  }

  /** Vitamin A is never rescaled, whatever its display unit: the IU to
      "mcg RAE" rule compares a single token with a two-word unit. */
  lemma VitaminANeverScaled(value: real, u: string, defaultUnit: Option<string>)
    ensures ConvertTo(value, Some(u), VitaminA, defaultUnit).value.value == value
  {
    var token := TargetToken(defaultUnit);
    assert ' ' !in token;
    assert token != "mcg rae" by {
      assert ' ' in "mcg rae";
    }
  }

  /** A nutrient the order list does not name keeps its value and unit:
      its display token is "", a prefix of every unit. */
  lemma UnlistedKeyUnchanged(order: seq<OrderEntry>, value: real, u: string, key: string)
    requires FindOrderEntry(order, key).None?
    ensures ConvertToBaseUnit(order, value, Some(u), key) == Some(Quantity(value, u))
  {
  }

  lemma TokenMg()
    ensures ToLower("mg") == "mg" && UnitToken("mg") == "mg"
  {
    UnitTokenOfWord("mg");
  }

  lemma TokenMcg()
    ensures ToLower("mcg") == "mcg" && UnitToken("mcg") == "mcg"
  {
    UnitTokenOfWord("mcg");
  }

  lemma TokenIU()
    ensures ToLower("IU") == "iu" && UnitToken("IU") == "iu"
  {
    assert ToLower("IU") == "iu" by {
      assert LowerChar('I') == 'i' && LowerChar('U') == 'u';
    }
    UnitTokenOfWord("iu");
  }

  /** mg to mcg and back restores the amount, for every mg/mcg nutrient. */
  lemma MilligramRoundTrip(key: string, x: real)
    requires key in MassScaledKeys
    ensures ConvertTo(x, Some("mg"), key, Some("mcg")) == Some(Quantity(x * 1000.0, "mcg"))
    ensures ConvertTo(x * 1000.0, Some("mcg"), key, Some("mg")) == Some(Quantity(x, "mg"))
  {
    TokenMg();
    TokenMcg();
  }

  /** mcg to mg and back restores the amount, for every mg/mcg nutrient. */
  lemma MicrogramRoundTrip(key: string, x: real)
    requires key in MassScaledKeys
    ensures ConvertTo(x, Some("mcg"), key, Some("mg")) == Some(Quantity(x / 1000.0, "mg"))
    ensures ConvertTo(x / 1000.0, Some("mg"), key, Some("mcg")) == Some(Quantity(x, "mcg"))
  {
    TokenMg();
    TokenMcg();
  }

  /** Vitamin D: mcg to IU (x40) and back (/40) restores the amount. */
  lemma VitaminDRoundTrip(x: real)
    ensures ConvertTo(x, Some("mcg"), VitaminD, Some("IU")) == Some(Quantity(x * 40.0, "IU"))
    ensures ConvertTo(x * 40.0, Some("IU"), VitaminD, Some("mcg")) == Some(Quantity(x, "mcg"))
  {
    TokenMcg();
    TokenIU();
  }
}
