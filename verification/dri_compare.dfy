/** The DRI comparison table: one row per nutrient of the display order,
    with the day's amount, the bracket's DRI and the percentage met. */
module DriCompare {
  import opened Wrappers
  import opened JsText
  import opened JsNumber
  import opened ProductData
  import opened DriTables
  import opened Converter
  import opened Locator

  /** A table cell: a number, "—" or "N/A". */
  datatype Cell = Num(x: real) | Dash | NotApplicable

  datatype DriRow = DriRow(nutrient: string, amount: Cell, dri: Cell, percentDri: Cell, unit: string)

  /** The amount as displayed: two significant digits below 0.001 (and for
      every negative amount), two decimals below 1, one decimal below 10,
      and a whole number otherwise. */
  function FormatAmount(x: real): (r: real)
    ensures x == 0.0 ==> r == 0.0
    ensures 0.0 < x < 0.001 ==> WithinTwentieth(x, r) && TwoSignificant(x, r)
    ensures 0.001 <= x < 1.0 ==> 0.0 <= r && NearestStep(x, 100.0, r)
    ensures 1.0 <= x < 10.0 ==> 0.0 <= r && NearestStep(x, 10.0, r)
    ensures 10.0 <= x ==> 0.0 <= r && NearestStep(x, 1.0, r)
    ensures x < 0.0 ==> r <= 0.0 && TwoSignificant(-x, -r)
  {
    if x < 0.001 && x != 0.0 then ToExponential1(x)
    else if x < 1.0 && x != 0.0 then
      assert TenPow(2) == 100.0 by { assert TenPow(1) == 10.0; }
      ToFixed(x, 2)
    else if x < 10.0 && x != 0.0 then
      assert TenPow(1) == 10.0;
      ToFixed(x, 1)
    else Round(x) as real
  }

  /** The DRI entry the bracket gives `key`, if any. */
  function DriOf(bracket: AgeSexDris, key: string): Option<NutrientDri> {
    if key in bracket then Some(bracket[key]) else None
  }

  /** The unit the DRI value is in: the DRI's own unit, or the display
      unit when the bracket has no (or an empty) unit for the nutrient. */
  function DriUnit(bracket: AgeSexDris, e: OrderEntry): string {
    match DriOf(bracket, e.key)
    case Some(d) => if d.unit != "" then d.unit else e.defaultUnit.GetOr("")
    case None => e.defaultUnit.GetOr("")
  }

  /** The DRI value, when the bracket gives one. */
  function DriValue(bracket: AgeSexDris, key: string): Option<real> {
    match DriOf(bracket, key)
    case Some(d) => d.value
    case None => None
  }

  /** The day's amount for a nutrient present at `per100ml` in the daily
      volume; 0 for a zero volume. */
  function DailyAmount(per100ml: real, finalVolume: real): (r: real)
    ensures finalVolume > 0.0 ==> r * 100.0 == per100ml * finalVolume
    ensures finalVolume <= 0.0 ==> r == 0.0
    ensures per100ml >= 0.0 ==> r >= 0.0
  {
    if finalVolume > 0.0 then per100ml / 100.0 * finalVolume else 0.0
  }

  /** The row for one display-order entry, given what the locator found
      for it. */
  function RowOf(e: OrderEntry, bracket: AgeSexDris, found: Option<Located>, finalVolume: real): (r: DriRow)
    ensures r.nutrient == e.displayName + e.notesKey.GetOr("")
    ensures r.dri == (if DriValue(bracket, e.key).Some? then Num(DriValue(bracket, e.key).value) else Dash)
    ensures r.dri == Dash ==> r.percentDri == Dash
    ensures r.amount.Dash? <==> found.None? || finalVolume < 0.0
    ensures r.amount.Dash? ==> r.percentDri == Dash && r.unit == e.defaultUnit.GetOr("")
    ensures r.amount.Num? ==> r.unit == found.value.unit
    ensures r.amount.Num? ==> r.amount.x == FormatAmount(DailyAmount(found.value.valuePer100ml, finalVolume))
    ensures r.percentDri.Num? <==>
      r.amount.Num? && DriValue(bracket, e.key).Some? && DriValue(bracket, e.key).value > 0.0
      && SameUnitToken(r.unit, DriUnit(bracket, e))
    ensures r.percentDri.Num? ==>
      r.percentDri.x == Round(r.amount.x / DriValue(bracket, e.key).value * 100.0) as real
    ensures r.percentDri == NotApplicable <==>
      r.amount.Num? && DriValue(bracket, e.key).Some? && DriValue(bracket, e.key).value > 0.0
      && !SameUnitToken(r.unit, DriUnit(bracket, e))
  {
    var name := e.displayName + e.notesKey.GetOr("");
    var target := e.defaultUnit.GetOr("");
    var dri := DriValue(bracket, e.key);
    var driCell := if dri.Some? then Num(dri.value) else Dash;
    match found
    case Some(loc) =>
      if finalVolume >= 0.0 then
        var shown := FormatAmount(DailyAmount(loc.valuePer100ml, finalVolume));
        var percent :=
          if dri.Some? && dri.value > 0.0 then
            if SameUnitToken(loc.unit, DriUnit(bracket, e)) then Num(Round(shown / dri.value * 100.0) as real)
            else NotApplicable
          else Dash;
        DriRow(name, Num(shown), driCell, percent, loc.unit)
      else DriRow(name, Dash, driCell, Dash, target)
    case None => DriRow(name, Dash, driCell, Dash, target)
  }

  /** What the locator finds for an entry: it is looked up by the entry's
      key (not its display name) and asked in the entry's display unit,
      `""` when the entry has none. */
  function FoundFor(e: OrderEntry, info: seq<NutritionRecord>, order: seq<OrderEntry>): (r: Option<Located>)
    ensures r.Some? ==> exists k, i | 0 <= k < |NamesToTry(e.key)| && 0 <= i < |info| ::
      RecordName(info[i]) == Some(NamesToTry(e.key)[k]) && r == FromRecord(info[i], e.key, e.defaultUnit.GetOr(""), order)
    ensures (forall k, i | 0 <= k < |NamesToTry(e.key)| && 0 <= i < |info| :: RecordName(info[i]) != Some(NamesToTry(e.key)[k]))
      ==> r.None?
  {
    Locate(info, e.key, e.defaultUnit.GetOr(""), order)
  }

  /** The table: one row per display-order entry, in the order's order. */
  function Rows(order: seq<OrderEntry>, bracket: AgeSexDris, info: seq<NutritionRecord>, finalVolume: real): (r: seq<DriRow>)
    ensures |r| == |order|
    ensures forall i | 0 <= i < |order| :: r[i] == RowOf(order[i], bracket, FoundFor(order[i], info, order), finalVolume)
  {
    seq(|order|, i requires 0 <= i < |order| => RowOf(order[i], bracket, FoundFor(order[i], info, order), finalVolume))
  }

  /** A row reads the first record named like its key: the record's
      per-100 mL number, converted for the key, scaled to the day's volume
      and rounded for display, in the display unit when the leading tokens
      agree and in the converted unit otherwise. */
  lemma RowReadsNamedRecord(order: seq<OrderEntry>, bracket: AgeSexDris, info: seq<NutritionRecord>, v: real, i: nat, j: nat)
    requires i < |order| && j < |info| && v >= 0.0
    requires RecordName(info[j]) == Some(NormalizeName(order[i].key))
    requires forall m | 0 <= m < j :: RecordName(info[m]) != Some(NormalizeName(order[i].key))
    requires Per100ml(info[j]).Some? && Per100ml(info[j]).value.Number?
    requires Get(info[j], "Units").Some? && Get(info[j], "Units").value.Text?
    ensures var c := ConvertToBaseUnit(order, Per100ml(info[j]).value.n, Some(Get(info[j], "Units").value.s), order[i].key).value;
      var target := order[i].defaultUnit.GetOr("");
      && Rows(order, bracket, info, v)[i].amount == Num(FormatAmount(DailyAmount(c.value, v)))
      && Rows(order, bracket, info, v)[i].unit == (if SameUnitToken(c.unit, target) then target else c.unit)
  {
    ExactNameWins(info, order[i].key, order[i].defaultUnit.GetOr(""), order, j);
  }

  /** A row whose key and aliases no record carries shows "—" for the
      amount and the percentage, in the display unit. */
  lemma RowWithoutRecord(order: seq<OrderEntry>, bracket: AgeSexDris, info: seq<NutritionRecord>, v: real, i: nat)
    requires i < |order|
    requires forall k, m | 0 <= k < |NamesToTry(order[i].key)| && 0 <= m < |info| ::
      RecordName(info[m]) != Some(NamesToTry(order[i].key)[k])
    ensures Rows(order, bracket, info, v)[i].amount == Dash
    ensures Rows(order, bracket, info, v)[i].percentDri == Dash
    ensures Rows(order, bracket, info, v)[i].unit == order[i].defaultUnit.GetOr("")
  {
  }

  /** With no daily volume, every located nutrient shows 0 and 0 %. */
  lemma ZeroVolumeRow(e: OrderEntry, bracket: AgeSexDris, loc: Located)
    ensures RowOf(e, bracket, Some(loc), 0.0).amount == Num(0.0)
    ensures RowOf(e, bracket, Some(loc), 0.0).percentDri in {Num(0.0), NotApplicable, Dash}
  {
    assert FormatAmount(0.0) == 0.0;
    assert Round(0.0) == 0;
  }
}
