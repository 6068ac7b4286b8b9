/** What the shipped tables mean for the DRI comparison: which rows show a
    DRI, which can show a percentage, and that every selectable age/sex
    option yields the full table. */
module TableFacts {
  import opened Wrappers
  import opened JsText
  import opened DriTables
  import opened Converter
  import opened Locator
  import opened ProductData
  import opened Dose
  import opened DriCompare
  import opened Calculator
  import opened OrderSets
  import opened OrderScan
  import opened OrderFacts
  import opened BracketFacts
  import opened ShippedUnits

  /** A row shows "—" for the DRI exactly for the eight nutrients without
      one, and for fiber in the four infant brackets; a DRI shown is
      positive. */
  lemma DriCellShown(j: nat, i: nat, bracket: AgeSexDris, found: Option<Located>, v: real)
    requires j < |DriData| && i < |NutrientOrder()| && bracket == DriData[j].1
    ensures RowOf(NutrientOrder()[i], bracket, found, v).dri == Dash <==>
      NutrientOrder()[i].key in NoDriKeys || (j < 4 && NutrientOrder()[i].key == "Dietary Fiber")
    ensures RowOf(NutrientOrder()[i], bracket, found, v).dri.Num? ==>
      RowOf(NutrientOrder()[i], bracket, found, v).dri.x > 0.0
  {
    AllBracketsWellFormed();
    OrderKeysCovered();
    KeySetsDisjoint();
    var key := NutrientOrder()[i].key;
    if key in BracketKeys {
      assert GoodEntry(key, bracket[key], j < 4);
    }
  }

  /** The DRI is in the nutrient's display unit for every nutrient with a
      DRI except Manganese, whose DRI is in mcg while it is displayed in mg. */
  lemma DriUnitMatchesDisplay(j: nat, i: nat, bracket: AgeSexDris)
    requires j < |DriData| && i < |NutrientOrder()| && bracket == DriData[j].1
    requires NutrientOrder()[i].key in BracketKeys
    ensures NutrientOrder()[i].defaultUnit.Some?
    ensures DriUnit(bracket, NutrientOrder()[i]) == NutrientOrder()[i].defaultUnit.value <==>
      NutrientOrder()[i].key != "Manganese"
    ensures NutrientOrder()[i].key == "Manganese" ==> DriUnit(bracket, NutrientOrder()[i]) == "mcg"
  {
    KeysAt(j);
    EntriesAt(j);
    DisplayUnitsMatchOrder();
    OrderUnitsPresent();
    var e := NutrientOrder()[i];
    UnitOfGoodEntry(bracket, e, j < 4);
  }

  lemma UnitOfGoodEntry(bracket: AgeSexDris, e: OrderEntry, infant: bool)
    requires e.key in bracket && e.key in DisplayUnits && GoodEntry(e.key, bracket[e.key], infant)
    requires e.defaultUnit == Some(DisplayUnits[e.key]) && DisplayUnits[e.key] != ""
    ensures DriUnit(bracket, e) == e.defaultUnit.value <==> e.key != "Manganese"
    ensures e.key == "Manganese" ==> DriUnit(bracket, e) == "mcg"
  {
  }

  /** A nutrient with a DRI, located in its display unit, gets a percentage
      whenever the bracket has a value for it, except Manganese. */
  lemma PercentShown(j: nat, i: nat, bracket: AgeSexDris, found: Option<Located>, v: real)
    requires j < |DriData| && i < |NutrientOrder()| && bracket == DriData[j].1
    requires NutrientOrder()[i].key in BracketKeys && NutrientOrder()[i].key != "Manganese"
    requires !(j < 4 && NutrientOrder()[i].key == "Dietary Fiber")
    requires found.Some? && v >= 0.0 && found.value.unit == NutrientOrder()[i].defaultUnit.GetOr("")
    ensures RowOf(NutrientOrder()[i], bracket, found, v).percentDri.Num?
  {
    DriCellShown(j, i, bracket, found, v);
    DriUnitMatchesDisplay(j, i, bracket);
    KeySetsDisjoint();
  }

  /** Manganese located in mg never gets a percentage: its DRI is in mcg. */
  lemma ManganeseNotApplicable(j: nat, i: nat, bracket: AgeSexDris, found: Option<Located>, v: real)
    requires j < |DriData| && i < |NutrientOrder()| && bracket == DriData[j].1
    requires NutrientOrder()[i].key == "Manganese"
    requires found.Some? && v >= 0.0 && UnitToken(found.value.unit) == "mg"
    ensures RowOf(NutrientOrder()[i], bracket, found, v).percentDri == NotApplicable
  {
    DriCellShown(j, i, bracket, found, v);
    DriUnitMatchesDisplay(j, i, bracket);
    TokenMcg();
  }

  lemma ManganeseNormalized()
    ensures NormalizeName("Manganese") == "manganese"
  {
    NormalizedSpelling("Manganese", "manganese");
  }

  /** End to end: when a product's first record named "Manganese" gives a
      number in mg or mcg, the Manganese row of every bracket's table shows
      the amount in mg and "N/A" for the percentage. */
  lemma ManganeseRowNotApplicable(j: nat, info: seq<NutritionRecord>, v: real, r: nat, x: real, u: string)
    requires j < |DriData| && v >= 0.0 && r < |info|
    requires RecordName(info[r]) == Some("manganese")
    requires forall m | 0 <= m < r :: RecordName(info[m]) != Some("manganese")
    requires Per100ml(info[r]) == Some(Number(x)) && Get(info[r], "Units") == Some(Text(u))
    requires u == "mg" || u == "mcg"
    ensures NutrientOrder()[10].key == "Manganese"
    ensures Rows(NutrientOrder(), DriData[j].1, info, v)[10].unit == "mg"
    ensures Rows(NutrientOrder(), DriData[j].1, info, v)[10].percentDri == NotApplicable
  {
    var order := NutrientOrder();
    Row10();
    ManganeseNormalized();
    ExactNameWins(info, "Manganese", "mg", order, r);
    ManganeseLocatedInMg(info[r], x, u);
    var found := FoundFor(order[10], info, order);
    assert found == Some(Located(if u == "mg" then x else x / 1000.0, "mg"));
    TokenMg();
    ManganeseNotApplicable(j, 10, DriData[j].1, found, v);
  }

  /** Choosing one of the 20 age/sex options for a product with a carton
      baseline yields the full table: 38 rows against the chosen bracket. */
  lemma SelectedOptionTable(catalog: seq<Product>, input: UserInput, j: nat)
    requires j < |AgeSexOptions()| && input.ageGender == Some(AgeSexOptions()[j])
    ensures var r := CalculateResults(catalog, input);
      var p := FindProduct(catalog, input.product);
      r.driNutrients.Some? <==> p.Some? && CartonBaseline(catalog[p.value].nutritionalInfo).Some?
    ensures var r := CalculateResults(catalog, input);
      var p := FindProduct(catalog, input.product);
      r.driNutrients.Some? ==>
        |r.driNutrients.value| == 38
        && r.driNutrients.value == Rows(NutrientOrder(), DriData[j].1, catalog[p.value].nutritionalInfo, r.totalDailyVolume)
  {
    var r := CalculateResults(catalog, input);
    match FindProduct(catalog, input.product)
    case None =>
    case Some(p) =>
      var info := catalog[p].nutritionalInfo;
      match CartonBaseline(info)
      case None =>
      case Some(b) =>
        assert r == Dosed(NutrientOrder(), DriData, input, info, b);
        OptionTable(j, info, r.totalDailyVolume);
  }

  /** The table for a selectable option is the rows against its bracket. */
  lemma OptionTable(j: nat, info: seq<NutritionRecord>, v: real)
    requires j < |AgeSexOptions()|
    ensures DriTable(NutrientOrder(), DriData, Some(AgeSexOptions()[j]), info, v) ==
      Some(Rows(NutrientOrder(), DriData[j].1, info, v))
    ensures |Rows(NutrientOrder(), DriData[j].1, info, v)| == 38
  {
    OptionSelectsBracket(j);
    OptionsNonEmpty();
    OrderKeysDistinct();
  }
}
