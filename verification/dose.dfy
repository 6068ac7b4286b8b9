/** The dosing half of the calculator: the per-carton baseline read from the
    energy record, the daily volume and its quantization to 25 mL, and the
    cartons, calories, protein and per-kilogram figures derived from it. */
module Dose {
  import opened Wrappers
  import opened JsText
  import opened JsNumber
  import opened ProductData

  /** The three dosing methods; `None` stands for an unset method. */
  datatype Method = CaloriesPerDay | VolumePerDay | CartonsPerDay

  /** The carton's volume in mL and its calories, from the energy record. */
  datatype Baseline = Baseline(cartonVolumeMl: real, caloriesPerCarton: real)

  datatype WeightUnit = Kg | Lb

  /** Kilograms in a pound. */
  const PoundInKg: real := 0.453592

  /** The per-carton baseline, or `None` on each of the calculator's error
      paths: no first record, a first record that is not
      {Nutrition: "Energy", Units: "Cal"}, at most three entries, a fourth
      entry whose key is not a positive number, or whose value is not a
      number. The volume is the number the key starts with ("250 ml"). */
  function CartonBaseline(info: seq<NutritionRecord>): (r: Option<Baseline>)
    ensures r.Some? <==>
      |info| > 0 && Get(info[0], "Nutrition") == Some(Text("Energy")) && Get(info[0], "Units") == Some(Text("Cal"))
      && |info[0]| > 3 && ParseFloat(info[0][3].0).Some? && ParseFloat(info[0][3].0).value > 0.0
      && ParseValue(Some(info[0][3].1)).Some?
    ensures r.Some? ==> r.value.cartonVolumeMl > 0.0
    ensures r.Some? ==> r.value == Baseline(ParseFloat(info[0][3].0).value, ParseValue(Some(info[0][3].1)).value)
  {
    if |info| == 0 then None
    else
      var energy := info[0];
      if Get(energy, "Nutrition") != Some(Text("Energy")) || Get(energy, "Units") != Some(Text("Cal")) then None
      else if |energy| <= 3 then None
      else
        match (ParseFloat(energy[3].0), ParseValue(Some(energy[3].1)))
        case (Some(volume), Some(calories)) => if volume <= 0.0 then None else Some(Baseline(volume, calories))
        case _ => None
  }

  /** `input.cartonsPerDay || 0`: an unset dose counts as 0. */
  function DoseValue(dose: Option<real>): (r: real)
    ensures dose.None? ==> r == 0.0
    ensures dose.Some? ==> r == dose.value
  {
    match dose
    case Some(d) => if d != 0.0 then d else 0.0
    case None => 0.0
  }

  /** The daily volume in mL before quantization: a calorie dose through
      the carton's volume per calorie (0 when the carton has no calories),
      a volume as given, a carton count times the carton volume, and 0
      without a method. */
  function RawDailyVolume(how: Option<Method>, dose: real, b: Baseline): real {
    match how
    case Some(CaloriesPerDay) =>
      if b.caloriesPerCarton > 0.0 then dose * (b.cartonVolumeMl / b.caloriesPerCarton) else 0.0
    case Some(VolumePerDay) => dose
    case Some(CartonsPerDay) => dose * b.cartonVolumeMl
    case None => 0.0
  }

  /** The raw volume holds what the dose asks for: its calories are the
      calorie dose, its cartons the carton dose, and it is the volume dose;
      a carton without calories or an unset method asks for nothing. */
  lemma RawVolumeMeaning(how: Option<Method>, dose: real, b: Baseline)
    ensures how == Some(CaloriesPerDay) && b.caloriesPerCarton > 0.0 ==>
      RawDailyVolume(how, dose, b) * b.caloriesPerCarton == dose * b.cartonVolumeMl
    ensures how == Some(CaloriesPerDay) && b.caloriesPerCarton <= 0.0 ==> RawDailyVolume(how, dose, b) == 0.0
    ensures how == Some(VolumePerDay) ==> RawDailyVolume(how, dose, b) == dose
    ensures how == Some(CartonsPerDay) && b.cartonVolumeMl != 0.0 ==> RawDailyVolume(how, dose, b) / b.cartonVolumeMl == dose
    ensures how.None? ==> RawDailyVolume(how, dose, b) == 0.0
  {
    var c := b.caloriesPerCarton;
    var v := b.cartonVolumeMl;
    if how == Some(CaloriesPerDay) && c > 0.0 {
      assert dose * (v / c) * c == dose * v;
    } else if how == Some(CartonsPerDay) && v != 0.0 {
      assert dose * v / v == dose;
    }
  }

  /** The three methods agree: `n` cartons, their volume and their
      calories all ask for the same volume. */
  lemma MethodsAgree(b: Baseline, n: real)
    requires b.caloriesPerCarton > 0.0
    ensures RawDailyVolume(Some(VolumePerDay), n * b.cartonVolumeMl, b) == RawDailyVolume(Some(CartonsPerDay), n, b)
    ensures RawDailyVolume(Some(CaloriesPerDay), n * b.caloriesPerCarton, b) == RawDailyVolume(Some(CartonsPerDay), n, b)
  {
    var c := b.caloriesPerCarton;
    var v := b.cartonVolumeMl;
    assert c * (v / c) == v;
    assert n * c * (v / c) == n * (c * (v / c));
  }

  /** A non-negative dose asks for a non-negative volume. */
  lemma RawVolumeNonNegative(how: Option<Method>, dose: real, b: Baseline)
    requires dose >= 0.0 && b.cartonVolumeMl > 0.0
    ensures RawDailyVolume(how, dose, b) >= 0.0
  {
    if how == Some(CaloriesPerDay) && b.caloriesPerCarton > 0.0 {
      assert b.cartonVolumeMl / b.caloriesPerCarton > 0.0;
    }
  }

  /** A larger dose never asks for less volume. */
  lemma RawVolumeMonotone(how: Option<Method>, d1: real, d2: real, b: Baseline)
    requires d1 <= d2 && b.cartonVolumeMl > 0.0
    ensures RawDailyVolume(how, d1, b) <= RawDailyVolume(how, d2, b)
  {
    if how == Some(CaloriesPerDay) && b.caloriesPerCarton > 0.0 {
      var k := b.cartonVolumeMl / b.caloriesPerCarton;
      assert RawDailyVolume(how, d1, b) == d1 * k;
      assert RawDailyVolume(how, d2, b) == d2 * k;
      ScaleMonotone(d1, d2, k);
    } else if how == Some(CartonsPerDay) {
      ScaleMonotone(d1, d2, b.cartonVolumeMl);
    }
  }

  /** The volume is a whole number of 25 mL steps. */
  predicate IsMultipleOf25(v: real) {
    (v / 25.0).Floor as real * 25.0 == v
  }

  /** `Math.round(raw / 25) * 25`: the nearest multiple of 25 mL, within
      12.5 mL of the raw volume. */
  function QuantizeVolume(raw: real): (r: real)
    ensures IsMultipleOf25(r)
    ensures raw - 12.5 < r <= raw + 12.5
  {
    var n := Round(raw / 25.0);
    assert (n as real * 25.0) / 25.0 == n as real;
    n as real * 25.0
  }

  /** No multiple of 25 is closer to the raw volume than the quantized one. */
  lemma QuantizeNearest(raw: real, m: int)
    ensures Abs(raw - QuantizeVolume(raw)) <= Abs(raw - m as real * 25.0)
  {
    var q := QuantizeVolume(raw);
    var n := (q / 25.0).Floor;
    assert q == n as real * 25.0;
    if m < n {
      assert m as real * 25.0 <= q - 25.0;
    } else if m > n {
      assert m as real * 25.0 >= q + 25.0;
    }
  }

  /** A raw volume exactly halfway between two steps goes up. */
  lemma QuantizeTiesUp(k: int)
    ensures QuantizeVolume(k as real * 25.0 + 12.5) == (k + 1) as real * 25.0
  {
    assert (k as real * 25.0 + 12.5) / 25.0 + 0.5 == (k + 1) as real;
  }

  /** More raw volume never quantizes to less. */
  lemma QuantizeMonotone(a: real, b: real)
    requires a <= b
    ensures QuantizeVolume(a) <= QuantizeVolume(b)
  {
    assert a / 25.0 <= b / 25.0;
    RoundMonotone(a / 25.0, b / 25.0);
  }

  lemma RoundMonotone(a: real, b: real)
    requires a <= b
    ensures Round(a) <= Round(b)
  {
    assert (a + 0.5).Floor as real <= a + 0.5 <= b + 0.5 < (b + 0.5).Floor as real + 1.0;
  }

  /** `Math.round(x * 10) / 10`: the nearest tenth, a half going up. */
  function Round1(x: real): (r: real)
    ensures NearestStep(x, 10.0, r)
  {
    var n := Round(x * 10.0);
    assert n as real / 10.0 * 10.0 == n as real;
    n as real / 10.0
  }

  /** A larger number never rounds to a smaller tenth. */
  lemma Round1Monotone(x: real, y: real)
    requires x <= y
    ensures Round1(x) <= Round1(y)
  {
    NearestStepMonotone(x, y, 10.0, Round1(x), Round1(y));
  }

  /** A non-negative number rounds to a non-negative tenth. */
  lemma Round1NonNegative(x: real)
    requires x >= 0.0
    ensures Round1(x) >= 0.0
  {
    assert Round(x * 10.0) >= 0;
  }

  /** The carton count for the quantized volume, to one decimal. */
  function Cartons(finalVolume: real, b: Baseline): (r: real)
    ensures b.cartonVolumeMl > 0.0 ==> NearestStep(finalVolume / b.cartonVolumeMl, 10.0, r)
    ensures b.cartonVolumeMl <= 0.0 ==> r == 0.0
  {
    Round1(if b.cartonVolumeMl > 0.0 then finalVolume / b.cartonVolumeMl else 0.0)
  }

  /** The daily calories for the quantized volume, to one decimal. */
  function Calories(finalVolume: real, b: Baseline): (r: real)
    ensures b.cartonVolumeMl > 0.0 ==> NearestStep(finalVolume * (b.caloriesPerCarton / b.cartonVolumeMl), 10.0, r)
    ensures b.cartonVolumeMl <= 0.0 ==> r == 0.0
  {
    Round1(if b.cartonVolumeMl > 0.0 then finalVolume * (b.caloriesPerCarton / b.cartonVolumeMl) else 0.0)
  }

  /** More volume never gives fewer cartons or fewer calories. */
  lemma CartonsCaloriesMonotone(v1: real, v2: real, b: Baseline)
    requires v1 <= v2 && b.cartonVolumeMl > 0.0 && b.caloriesPerCarton >= 0.0
    ensures Cartons(v1, b) <= Cartons(v2, b)
    ensures Calories(v1, b) <= Calories(v2, b)
  {
    CartonsMonotone(v1, v2, b);
    CaloriesMonotone(v1, v2, b);
  }

  lemma CartonsMonotone(v1: real, v2: real, b: Baseline)
    requires v1 <= v2 && b.cartonVolumeMl > 0.0
    ensures Cartons(v1, b) <= Cartons(v2, b)
  {
    var v := b.cartonVolumeMl;
    QuotientMonotone(v1, v2, v);
    NearestStepMonotone(v1 / v, v2 / v, 10.0, Cartons(v1, b), Cartons(v2, b));
  }

  lemma CaloriesMonotone(v1: real, v2: real, b: Baseline)
    requires v1 <= v2 && b.cartonVolumeMl > 0.0 && b.caloriesPerCarton >= 0.0
    ensures Calories(v1, b) <= Calories(v2, b)
  {
    var k := b.caloriesPerCarton / b.cartonVolumeMl;
    ScaleMonotone(v1, v2, k);
    NearestStepMonotone(v1 * k, v2 * k, 10.0, Calories(v1, b), Calories(v2, b));
  }

  lemma QuotientMonotone(x: real, y: real, k: real)
    requires x <= y && k > 0.0
    ensures x / k <= y / k
  {
    ScaleMonotone(x, y, 1.0 / k);
  }

  /** The rounded carton count covers the quantized volume to within a
      twentieth of a carton. */
  lemma CartonsCoverVolume(finalVolume: real, b: Baseline)
    requires b.cartonVolumeMl > 0.0
    ensures Abs(Cartons(finalVolume, b) * b.cartonVolumeMl - finalVolume) <= b.cartonVolumeMl / 20.0
  {
    TenthOfQuotient(finalVolume, b.cartonVolumeMl, Cartons(finalVolume, b));
  }

  /** The nearest tenth `c` of `f / v`, times `v`, is within `v / 20` of `f`. */
  lemma TenthOfQuotient(f: real, v: real, c: real)
    requires v > 0.0 && NearestStep(f / v, 10.0, c)
    ensures Abs(c * v - f) <= v / 20.0
  {
    NearestStepBounds(f / v, 10.0, c);
    var d := c - f / v;
    assert c * v - f == d * v by {
      assert f / v * v == f;
    }
    ScaledTwentieth(d, v);
  }

  lemma ScaledTwentieth(d: real, v: real)
    requires -0.05 < d <= 0.05 && v > 0.0
    ensures Abs(d * v) <= v / 20.0
  {
    assert (d + 0.05) * v >= 0.0;
    assert (0.05 - d) * v >= 0.0;
  }

  /** The position of the first record whose name contains "Protein". */
  function ProteinIndex(info: seq<NutritionRecord>, from: nat := 0): (r: Option<nat>)
    ensures r.Some? ==> from <= r.value < |info| && NamesProtein(info[r.value])
    ensures r.Some? ==> forall j | from <= j < r.value :: !NamesProtein(info[j])
    ensures r.None? ==> forall j | from <= j < |info| :: !NamesProtein(info[j])
    decreases |info| - from
  {
    if from >= |info| then None
    else if NamesProtein(info[from]) then Some(from)
    else ProteinIndex(info, from + 1)
  }

  /** The record's "Nutrition" is a string containing "Protein". */
  predicate NamesProtein(record: NutritionRecord) {
    match NutritionName(record)
    case Some(s) => Contains(s, "Protein")
    case None => false
  }

  /** The protein in one carton: the number in the protein record's fourth
      entry; when that is 0 (or missing or not a number), the record's
      `"100 ml" || "100 ml*"` figure scaled to the carton; and 0 for a
      negative result or no protein record. */
  function ProteinPerCarton(info: seq<NutritionRecord>, cartonVolumeMl: real): (r: real)
    ensures r >= 0.0
    ensures ProteinIndex(info).None? ==> r == 0.0
  {
    match ProteinIndex(info)
    case None => 0.0
    case Some(i) =>
      var record := info[i];
      var fromEntry := if |record| > 3 then ParseValue(Some(record[3].1)).GetOr(0.0) else 0.0;
      var perCarton :=
        if fromEntry == 0.0 && cartonVolumeMl > 0.0 then
          match Or(Get(record, "100 ml"), Get(record, "100 ml*"))
          case Some(Number(n)) => n / 100.0 * cartonVolumeMl
          case _ => fromEntry
        else fromEntry;
      if perCarton < 0.0 then 0.0 else perCarton
  }

  /** A positive number in the fourth entry is the carton's protein. */
  lemma ProteinFromFourthEntry(info: seq<NutritionRecord>, cartonVolumeMl: real, i: nat, p: real)
    requires ProteinIndex(info) == Some(i)
    requires |info[i]| > 3 && ParseValue(Some(info[i][3].1)) == Some(p) && p > 0.0
    ensures ProteinPerCarton(info, cartonVolumeMl) == p
  {
  }

  /** Without a usable fourth entry, a non-negative per-100 mL figure is
      scaled to the carton. */
  lemma ProteinFallback(info: seq<NutritionRecord>, cartonVolumeMl: real, i: nat, n: real)
    requires ProteinIndex(info) == Some(i) && cartonVolumeMl > 0.0
    requires |info[i]| <= 3 || ParseValue(Some(info[i][3].1)).GetOr(0.0) == 0.0
    requires Or(Get(info[i], "100 ml"), Get(info[i], "100 ml*")) == Some(Number(n)) && n >= 0.0
    ensures ProteinPerCarton(info, cartonVolumeMl) == n / 100.0 * cartonVolumeMl
  {
    assert n / 100.0 * cartonVolumeMl >= 0.0;
  }

  /** A negative number in the fourth entry is replaced by 0. */
  lemma ProteinNegativeEntry(info: seq<NutritionRecord>, cartonVolumeMl: real, i: nat, p: real)
    requires ProteinIndex(info) == Some(i)
    requires |info[i]| > 3 && ParseValue(Some(info[i][3].1)) == Some(p) && p < 0.0
    ensures ProteinPerCarton(info, cartonVolumeMl) == 0.0
  {
  }

  /** Without a usable fourth entry, and with no carton volume or no
      per-100 mL number to fall back on, the carton holds 0 protein. */
  lemma ProteinWithoutFallback(info: seq<NutritionRecord>, cartonVolumeMl: real, i: nat)
    requires ProteinIndex(info) == Some(i)
    requires |info[i]| <= 3 || ParseValue(Some(info[i][3].1)).GetOr(0.0) == 0.0
    requires cartonVolumeMl <= 0.0 || !Or(Get(info[i], "100 ml"), Get(info[i], "100 ml*")).Some?
             || !Or(Get(info[i], "100 ml"), Get(info[i], "100 ml*")).value.Number?
    ensures ProteinPerCarton(info, cartonVolumeMl) == 0.0
  {
  }

  /** A negative per-100 mL fallback is replaced by 0. */
  lemma ProteinNegativeFallback(info: seq<NutritionRecord>, cartonVolumeMl: real, i: nat, n: real)
    requires ProteinIndex(info) == Some(i) && cartonVolumeMl > 0.0
    requires |info[i]| <= 3 || ParseValue(Some(info[i][3].1)).GetOr(0.0) == 0.0
    requires Or(Get(info[i], "100 ml"), Get(info[i], "100 ml*")) == Some(Number(n)) && n < 0.0
    ensures ProteinPerCarton(info, cartonVolumeMl) == 0.0
  {
    assert n / 100.0 * cartonVolumeMl < 0.0;
  }

  /** The day's protein: the rounded carton count times the protein per
      carton, to one decimal; never negative. */
  function TotalProtein(cartons: real, perCarton: real): (r: real)
    requires perCarton >= 0.0
    ensures cartons >= 0.0 ==> r >= 0.0
    ensures NearestStep(cartons * perCarton, 10.0, r)
  {
    if cartons >= 0.0 then
      assert cartons * perCarton >= 0.0;
      Round1NonNegative(cartons * perCarton);
      Round1(cartons * perCarton)
    else Round1(cartons * perCarton)
  }

  /** More cartons never give less protein. */
  lemma TotalProteinMonotone(c1: real, c2: real, perCarton: real)
    requires c1 <= c2 && perCarton >= 0.0
    ensures TotalProtein(c1, perCarton) <= TotalProtein(c2, perCarton)
  {
    ScaledNearestStepMonotone(c1, c2, perCarton, 10.0, TotalProtein(c1, perCarton), TotalProtein(c2, perCarton));
  }

  /** A per-kilogram figure, present only for a positive weight. */
  function PerKg(total: real, weight: Option<real>): (r: Option<real>)
    ensures r.Some? <==> weight.Some? && weight.value > 0.0
    ensures r.Some? ==> NearestStep(total / weight.value, 10.0, r.value)
  {
    match weight
    case Some(w) => if w != 0.0 && w > 0.0 then Some(Round1(total / w)) else None
    case None => None
  }

  /** The weight in kilograms as entered in kilograms or pounds. */
  function WeightInKg(value: real, unit: WeightUnit): (r: real)
    ensures unit == Kg ==> r == value
    ensures unit == Lb ==> r * 1000000.0 == value * 453592.0
    ensures value > 0.0 ==> 0.0 < r <= value
  {
    match unit
    case Kg => value
    case Lb => value * PoundInKg
  }

  /** A positive weight in either unit enables the per-kilogram figures. */
  lemma PositiveWeightGivesPerKg(total: real, value: real, unit: WeightUnit)
    requires value > 0.0
    ensures PerKg(total, Some(WeightInKg(value, unit))).Some?
  {
  }
}
