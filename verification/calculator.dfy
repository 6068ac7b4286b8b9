/** `calculateResults`: the user's answers and the product catalog in, the
    dosing figures and the DRI table out. Every failure to read the product
    ends in the all-zero result rather than an error. */
module Calculator {
  import opened Wrappers
  import opened JsText
  import opened JsNumber
  import opened ProductData
  import opened DriTables
  import opened Locator
  import opened Dose
  import opened DriCompare

  /** The answers collected by the conversation; every one may be unset. */
  datatype UserInput = UserInput(
    product: Option<string>,
    calculationMethod: Option<Method>,
    cartonsPerDay: Option<real>,
    ageGender: Option<string>,
    weight: Option<real>)

  datatype CalculationResult = CalculationResult(
    calculatedCartonsPerDay: real,
    totalDailyVolume: real,
    totalDailyCalories: real,
    totalDailyProtein: real,
    kcalsPerKg: Option<real>,
    proteinPerKg: Option<real>,
    driNutrients: Option<seq<DriRow>>)

  /** The result of every path that cannot read the product. */
  const ZeroResult := CalculationResult(0.0, 0.0, 0.0, 0.0, None, None, None)

  /** The first catalog product with the selected name. */
  function FindProduct(catalog: seq<Product>, name: Option<string>, from: nat := 0): (r: Option<nat>)
    ensures r.Some? ==> name.Some? && from <= r.value < |catalog| && catalog[r.value].productName == name.value
    ensures r.Some? ==> forall j | from <= j < r.value :: catalog[j].productName != name.value
    ensures r.None? ==> name.None? || forall j | from <= j < |catalog| :: catalog[j].productName != name.value
    decreases |catalog| - from
  {
    if name.None? || from >= |catalog| then None
    else if catalog[from].productName == name.value then Some(from)
    else FindProduct(catalog, name, from + 1)
  }

  /** The DRI table for the chosen bracket: absent without a bracket, for a
      bracket the table does not know, or when the display order is empty. */
  function DriTable(order: seq<OrderEntry>, dri: AllDriData, ageGender: Option<string>, info: seq<NutritionRecord>, finalVolume: real): (r: Option<seq<DriRow>>)
    ensures r.Some? <==> ageGender.Some? && ageGender.value != "" && BracketOf(dri, ageGender.value).Some? && |order| > 0
    ensures r.Some? ==> r.value == Rows(order, BracketOf(dri, ageGender.value).value, info, finalVolume)
  {
    match ageGender
    case Some(bracket) =>
      if bracket != "" then
        match BracketOf(dri, bracket)
        case Some(dris) =>
          var rows := Rows(order, dris, info, finalVolume);
          if |rows| > 0 then Some(rows) else None
        case None => None
      else None
    case None => None
  }

  /** The calculator against a catalog, a display order and a DRI table. */
  function Calculate(catalog: seq<Product>, order: seq<OrderEntry>, dri: AllDriData, input: UserInput): (r: CalculationResult)
    ensures FindProduct(catalog, input.product).None? ==> r == ZeroResult
    ensures var p := FindProduct(catalog, input.product);
      p.Some? && CartonBaseline(catalog[p.value].nutritionalInfo).None? ==> r == ZeroResult
    ensures IsMultipleOf25(r.totalDailyVolume)
    ensures (r.kcalsPerKg.Some? || r.proteinPerKg.Some?) ==> input.weight.Some? && input.weight.value > 0.0
    ensures input.ageGender.None? || BracketOf(dri, input.ageGender.value).None? ==> r.driNutrients.None?
    ensures r.driNutrients.Some? ==> |r.driNutrients.value| == |order|
  {
    match FindProduct(catalog, input.product)
    case None =>
      assert IsMultipleOf25(0.0);
      ZeroResult
    case Some(p) =>
      var info := catalog[p].nutritionalInfo;
      match CartonBaseline(info)
      case None =>
        assert IsMultipleOf25(0.0);
        ZeroResult
      case Some(b) => Dosed(order, dri, input, info, b)
  }

  /** The result for a product whose baseline was read: the dosing figures
      and the DRI table for the daily volume they settle on. */
  function Dosed(order: seq<OrderEntry>, dri: AllDriData, input: UserInput, info: seq<NutritionRecord>, b: Baseline): CalculationResult
  {
    var f := Figures(input, b, ProteinPerCarton(info, b.cartonVolumeMl));
    f.(driNutrients := DriTable(order, dri, input.ageGender, info, f.totalDailyVolume))
  }

  /** The dosing figures alone, before the DRI table is attached: they read
      the product only through its baseline and its protein per carton. */
  function Figures(input: UserInput, b: Baseline, proteinPerCarton: real): CalculationResult
    requires proteinPerCarton >= 0.0
  {
    var finalVolume := QuantizeVolume(RawDailyVolume(input.calculationMethod, DoseValue(input.cartonsPerDay), b));
    var cartons := Cartons(finalVolume, b);
    var calories := Calories(finalVolume, b);
    var protein := TotalProtein(cartons, proteinPerCarton);
    CalculationResult(
      cartons, finalVolume, calories, protein,
      PerKg(calories, input.weight), PerKg(protein, input.weight), None)
  }

  /** `Figures` spelled out field by field. */
  lemma FiguresFields(input: UserInput, b: Baseline, p: real)
    requires p >= 0.0
    ensures var v := QuantizeVolume(RawDailyVolume(input.calculationMethod, DoseValue(input.cartonsPerDay), b));
      var r := Figures(input, b, p);
      && r.totalDailyVolume == v
      && r.calculatedCartonsPerDay == Cartons(v, b)
      && r.totalDailyCalories == Calories(v, b)
      && r.totalDailyProtein == TotalProtein(Cartons(v, b), p)
      && r.kcalsPerKg == PerKg(r.totalDailyCalories, input.weight)
      && r.proteinPerKg == PerKg(r.totalDailyProtein, input.weight)
  {
  }

  /** The daily volume is the nearest 25 mL step to what the dose asks for. */
  lemma FiguresVolume(input: UserInput, b: Baseline, p: real)
    requires p >= 0.0
    ensures var r := Figures(input, b, p);
      var raw := RawDailyVolume(input.calculationMethod, DoseValue(input.cartonsPerDay), b);
      IsMultipleOf25(r.totalDailyVolume) && raw - 12.5 < r.totalDailyVolume <= raw + 12.5
  {
    FiguresFields(input, b, p);
  }

  /** Cartons and calories are the nearest tenths of what the daily volume
      holds. */
  lemma FiguresTenths(input: UserInput, b: Baseline, p: real)
    requires b.cartonVolumeMl > 0.0 && p >= 0.0
    ensures var r := Figures(input, b, p);
      NearestStep(r.totalDailyVolume / b.cartonVolumeMl, 10.0, r.calculatedCartonsPerDay)
    ensures var r := Figures(input, b, p);
      NearestStep(r.totalDailyVolume * (b.caloriesPerCarton / b.cartonVolumeMl), 10.0, r.totalDailyCalories)
  {
    var r := Figures(input, b, p);
    FiguresVolumeFields(input, b, p, r);
    CartonsTenth(r.totalDailyVolume, b, r.calculatedCartonsPerDay);
    CaloriesTenth(r.totalDailyVolume, b, r.totalDailyCalories);
  }

  lemma FiguresVolumeFields(input: UserInput, b: Baseline, p: real, r: CalculationResult)
    requires p >= 0.0 && r == Figures(input, b, p)
    ensures r.calculatedCartonsPerDay == Cartons(r.totalDailyVolume, b)
    ensures r.totalDailyCalories == Calories(r.totalDailyVolume, b)
  {
    FiguresFields(input, b, p);
  }

  lemma CartonsTenth(v: real, b: Baseline, c: real)
    requires b.cartonVolumeMl > 0.0 && c == Cartons(v, b)
    ensures NearestStep(v / b.cartonVolumeMl, 10.0, c)
  {
  }

  lemma CaloriesTenth(v: real, b: Baseline, c: real)
    requires b.cartonVolumeMl > 0.0 && c == Calories(v, b)
    ensures NearestStep(v * (b.caloriesPerCarton / b.cartonVolumeMl), 10.0, c)
  {
  }

  /** The day's protein is the nearest tenth of the rounded cartons' protein. */
  lemma FiguresProtein(input: UserInput, b: Baseline, p: real, r: CalculationResult)
    requires p >= 0.0 && r == Figures(input, b, p)
    ensures NearestStep(r.calculatedCartonsPerDay * p, 10.0, r.totalDailyProtein)
  {
    FiguresProteinField(input, b, p, r);
    ProteinTenth(r.calculatedCartonsPerDay, p, r.totalDailyProtein);
  }

  lemma FiguresProteinField(input: UserInput, b: Baseline, p: real, r: CalculationResult)
    requires p >= 0.0 && r == Figures(input, b, p)
    ensures r.totalDailyProtein == TotalProtein(r.calculatedCartonsPerDay, p)
  {
    FiguresFields(input, b, p);
  }

  lemma ProteinTenth(c: real, p: real, t: real)
    requires p >= 0.0 && t == TotalProtein(c, p)
    ensures NearestStep(c * p, 10.0, t)
  {
  }

  /** The per-kilogram figures are present exactly for a positive weight,
      as the nearest tenths of the day's calories and protein per kg. */
  lemma FiguresPerKg(input: UserInput, b: Baseline, p: real)
    requires p >= 0.0
    ensures var r := Figures(input, b, p);
      && (r.kcalsPerKg.Some? <==> input.weight.Some? && input.weight.value > 0.0)
      && (r.proteinPerKg.Some? <==> r.kcalsPerKg.Some?)
      && (r.kcalsPerKg.Some? ==> NearestStep(r.totalDailyCalories / input.weight.value, 10.0, r.kcalsPerKg.value))
      && (r.proteinPerKg.Some? ==> NearestStep(r.totalDailyProtein / input.weight.value, 10.0, r.proteinPerKg.value))
  {
    FiguresFields(input, b, p);
  }

  /** The result carries the figures, and the DRI table is there exactly
      for a known bracket and a non-empty order, evaluated at the figures'
      daily volume. */
  lemma DosedTable(order: seq<OrderEntry>, dri: AllDriData, input: UserInput, info: seq<NutritionRecord>, b: Baseline)
    ensures var r := Dosed(order, dri, input, info, b);
      r.(driNutrients := None) == Figures(input, b, ProteinPerCarton(info, b.cartonVolumeMl))
    ensures var r := Dosed(order, dri, input, info, b);
      && (r.driNutrients.Some? <==>
           input.ageGender.Some? && input.ageGender.value != "" && BracketOf(dri, input.ageGender.value).Some? && |order| > 0)
      && (r.driNutrients.Some? ==>
           r.driNutrients.value == Rows(order, BracketOf(dri, input.ageGender.value).value, info, r.totalDailyVolume))
  {
  }

  /** `calculateResults(input)` with the shipped display order and DRI table. */
  function CalculateResults(catalog: seq<Product>, input: UserInput): (r: CalculationResult)
    ensures FindProduct(catalog, input.product).None? ==> r == ZeroResult
    ensures r.driNutrients.Some? ==> |r.driNutrients.value| == |NutrientOrder()|
  {
    Calculate(catalog, NutrientOrder(), DriData, input)
  }

  /** A non-negative dose never yields a negative volume, carton count or
      protein total. */
  lemma NonNegativeDose(input: UserInput, b: Baseline, p: real)
    requires b.cartonVolumeMl > 0.0 && p >= 0.0
    requires DoseValue(input.cartonsPerDay) >= 0.0
    ensures Figures(input, b, p).totalDailyVolume >= 0.0
    ensures Figures(input, b, p).calculatedCartonsPerDay >= 0.0
    ensures Figures(input, b, p).totalDailyProtein >= 0.0
  {
    var raw := RawDailyVolume(input.calculationMethod, DoseValue(input.cartonsPerDay), b);
    RawVolumeNonNegative(input.calculationMethod, DoseValue(input.cartonsPerDay), b);
    var v := QuantizeVolume(raw);
    assert v >= 0.0 by {
      assert Round(raw / 25.0) >= 0 by { assert raw / 25.0 >= 0.0; }
    }
    assert v / b.cartonVolumeMl >= 0.0;
    Round1NonNegative(v / b.cartonVolumeMl);
  }

  /** A larger dose never gives a smaller daily volume, carton count,
      calorie total or protein total. */
  lemma LargerDoseNeverLess(input: UserInput, b: Baseline, p: real, more: Option<real>)
    requires b.cartonVolumeMl > 0.0 && b.caloriesPerCarton >= 0.0 && p >= 0.0
    requires DoseValue(input.cartonsPerDay) <= DoseValue(more)
    ensures var r := Figures(input, b, p);
      var s := Figures(input.(cartonsPerDay := more), b, p);
      && r.totalDailyVolume <= s.totalDailyVolume
      && r.calculatedCartonsPerDay <= s.calculatedCartonsPerDay
      && r.totalDailyCalories <= s.totalDailyCalories
      && r.totalDailyProtein <= s.totalDailyProtein
  {
    var how := input.calculationMethod;
    var raw1 := RawDailyVolume(how, DoseValue(input.cartonsPerDay), b);
    var raw2 := RawDailyVolume(how, DoseValue(more), b);
    RawVolumeMonotone(how, DoseValue(input.cartonsPerDay), DoseValue(more), b);
    QuantizeMonotone(raw1, raw2);
    var v1 := QuantizeVolume(raw1);
    var v2 := QuantizeVolume(raw2);
    CartonsCaloriesMonotone(v1, v2, b);
    TotalProteinMonotone(Cartons(v1, b), Cartons(v2, b), p);
  }

  /** The energy record of a 250 mL, 250 Cal carton. */
  const SampleEnergy: NutritionRecord :=
    [("Nutrition", Text("Energy")), ("Units", Text("Cal")), ("100 ml", Number(100.0)), ("250 ml", Number(250.0))]

  const SampleCatalog: seq<Product> := [Product("Sample", [SampleEnergy])]

  lemma SampleBaseline()
    ensures CartonBaseline([SampleEnergy]) == Some(Baseline(250.0, 250.0))
  {
    assert KeyIndex(SampleEnergy, "Nutrition") == Some(0);
    assert SampleEnergy[0].0 != "Units";
    assert KeyIndex(SampleEnergy, "Units", 1) == Some(1);
    assert Get(SampleEnergy, "Units") == Some(Text("Cal"));
    SampleVolume();
  }

  lemma SampleVolume()
    ensures ParseFloat("250 ml") == Some(250.0)
  {
    assert DigitsValue("250") == 250 by {
      assert "250"[..2] == "25";
      assert "25"[..1] == "2";
      assert "2"[..0] == "";
    }
    assert "250 ml" == "250" + " ml";
    ParseFloatOfLabel("250", " ml");
  }

  /** Two cartons a day of a 250 mL / 250 Cal carton: 500 mL, 2.0 cartons,
      500.0 kcal. */
  lemma TwoCartonsScenario()
    ensures var r := CalculateResults(SampleCatalog, UserInput(Some("Sample"), Some(CartonsPerDay), Some(2.0), None, None));
      r.totalDailyVolume == 500.0 && r.calculatedCartonsPerDay == 2.0 && r.totalDailyCalories == 500.0
  {
    var b := Baseline(250.0, 250.0);
    assert RawDailyVolume(Some(CartonsPerDay), 2.0, b) == 500.0;
    assert QuantizeVolume(500.0) == 500.0 by { assert Round(500.0 / 25.0) == 20; }
    assert Cartons(500.0, b) == 2.0 by { assert Round(500.0 / 250.0 * 10.0) == 20; }
    assert Calories(500.0, b) == 500.0 by { assert Round(500.0 * (250.0 / 250.0) * 10.0) == 5000; }
    SampleFigures(UserInput(Some("Sample"), Some(CartonsPerDay), Some(2.0), None, None), 500.0, 500.0, 2.0, 500.0);
  }

  /** 300 kcal a day of the same carton: 300 mL, 1.2 cartons, 300.0 kcal. */
  lemma CaloriesScenario()
    ensures var r := CalculateResults(SampleCatalog, UserInput(Some("Sample"), Some(CaloriesPerDay), Some(300.0), None, None));
      r.totalDailyVolume == 300.0 && r.calculatedCartonsPerDay == 1.2 && r.totalDailyCalories == 300.0
  {
    var b := Baseline(250.0, 250.0);
    assert RawDailyVolume(Some(CaloriesPerDay), 300.0, b) == 300.0;
    assert QuantizeVolume(300.0) == 300.0 by { assert Round(300.0 / 25.0) == 12; }
    assert Cartons(300.0, b) == 1.2 by { assert Round(300.0 / 250.0 * 10.0) == 12; }
    assert Calories(300.0, b) == 300.0 by { assert Round(300.0 * (250.0 / 250.0) * 10.0) == 3000; }
    SampleFigures(UserInput(Some("Sample"), Some(CaloriesPerDay), Some(300.0), None, None), 300.0, 300.0, 1.2, 300.0);
  }

  /** The sample catalog's figures from the dose's raw volume, its 25 mL
      step, and the cartons and calories of that step. */
  lemma SampleFigures(input: UserInput, raw: real, v: real, cartons: real, calories: real)
    requires input.product == Some("Sample")
    requires RawDailyVolume(input.calculationMethod, DoseValue(input.cartonsPerDay), Baseline(250.0, 250.0)) == raw
    requires QuantizeVolume(raw) == v
    requires Cartons(v, Baseline(250.0, 250.0)) == cartons && Calories(v, Baseline(250.0, 250.0)) == calories
    ensures var r := CalculateResults(SampleCatalog, input);
      r.totalDailyVolume == v && r.calculatedCartonsPerDay == cartons && r.totalDailyCalories == calories
  {
    SampleDosed(input);
    FiguresFields(input, Baseline(250.0, 250.0), ProteinPerCarton([SampleEnergy], 250.0));
  }

  /** For the sample catalog, the calculator goes on to the dosing figures. */
  lemma SampleDosed(input: UserInput)
    requires input.product == Some("Sample")
    ensures CalculateResults(SampleCatalog, input) == Dosed(NutrientOrder(), DriData, input, [SampleEnergy], Baseline(250.0, 250.0))
    ensures CalculateResults(SampleCatalog, input).(driNutrients := None) == Figures(input, Baseline(250.0, 250.0), ProteinPerCarton([SampleEnergy], 250.0))
  {
    DosedTable(NutrientOrder(), DriData, input, [SampleEnergy], Baseline(250.0, 250.0));
    SampleBaseline();
    assert FindProduct(SampleCatalog, input.product) == Some(0);
  }
}
