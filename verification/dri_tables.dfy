/** The two constant tables of the DRI comparison, transcribed in full:
    the nutrient display order (`driTableNutrientOrder`) and the age/sex
    Dietary Reference Intake table (`driData`), plus the age/sex labels the
    user can choose from. */
module DriTables {
  import opened Wrappers

  /** One row of the display order: the nutrient's key, its label, an
      optional footnote suffix, and the unit the row is displayed in. */
  datatype OrderEntry = OrderEntry(key: string, displayName: string, notesKey: Option<string>, defaultUnit: Option<string>)

  /** A reference intake; a missing value means "not determined". */
  datatype NutrientDri = NutrientDri(value: Option<real>, unit: string)

  type AgeSexDris = map<string, NutrientDri>

  /** `driData` as its entries in source order: (age/sex label, bracket). */
  type AllDriData = seq<(string, AgeSexDris)>

  /** The position of the first bracket labelled `name`. */
  function BracketIndex(dri: AllDriData, name: string, from: nat := 0): (r: Option<nat>)
    ensures r.Some? ==> from <= r.value < |dri| && dri[r.value].0 == name
    ensures r.Some? ==> forall j | from <= j < r.value :: dri[j].0 != name
    ensures r.None? ==> forall j | from <= j < |dri| :: dri[j].0 != name
    decreases |dri| - from
  {
    if from >= |dri| then None
    else if dri[from].0 == name then Some(from)
    else BracketIndex(dri, name, from + 1)
  }

  /** `driData[name]`; `None` is `undefined`. */
  function BracketOf(dri: AllDriData, name: string): Option<AgeSexDris> {
    match BracketIndex(dri, name)
    case Some(i) => Some(dri[i].1)
    case None => None
  }

  /** The position of the first entry whose key is `key`
      (`driTableNutrientOrder.find(n => n.key === key)`). */
  function OrderIndex(order: seq<OrderEntry>, key: string, from: nat := 0): (r: Option<nat>)
    ensures r.Some? ==> from <= r.value < |order| && order[r.value].key == key
    ensures r.Some? ==> forall j | from <= j < r.value :: order[j].key != key
    ensures r.None? ==> forall j | from <= j < |order| :: order[j].key != key
    decreases |order| - from
  {
    if from >= |order| then None
    else if order[from].key == key then Some(from)
    else OrderIndex(order, key, from + 1)
  }

  /** `driTableNutrientOrder.find(n => n.key === key)`. */
  function FindOrderEntry(order: seq<OrderEntry>, key: string): Option<OrderEntry> {
    match OrderIndex(order, key)
    case Some(i) => Some(order[i])
    case None => None
  }

  /** The nutrient display order: 38 rows. */
  function NutrientOrder(): seq<OrderEntry> {
    [
      OrderEntry("Sodium", "Sodium (mg)", None, Some("mg")),
      OrderEntry("Potassium", "Potassium (mg)", None, Some("mg")),
      OrderEntry("Chloride", "Chloride (mg)", None, Some("mg")),
      OrderEntry("Calcium", "Calcium (mg)", None, Some("mg")),
      OrderEntry("Phosphorus", "Phosphorus (mg)", None, Some("mg")),
      OrderEntry("Magnesium", "Magnesium (mg)", None, Some("mg")),
      OrderEntry("Copper", "Copper (mcg)", None, Some("mcg")),
      OrderEntry("Selenium", "Selenium (mcg)", None, Some("mcg")),
      OrderEntry("Zinc", "Zinc (mg)", None, Some("mg")),
      OrderEntry("Chromium", "Chromium (mcg)", None, Some("mcg")),
      OrderEntry("Manganese", "Manganese (mg)", None, Some("mg")),
      OrderEntry("Molybdenum", "Molybdenum (mcg)", None, Some("mcg")),
      OrderEntry("Iodine", "Iodine (mcg)", None, Some("mcg")),
      OrderEntry("Iron", "Iron (mg)", None, Some("mg")),
      OrderEntry("Vitamin A (IU)", "Vitamin A", Some(" (mcg RAE*)"), Some("IU")),
      OrderEntry("Retinol", "Retinol (mcg)", None, Some("mcg")),
      OrderEntry("β-carotene", "β-carotene (mcg)", None, Some("mcg")),
      OrderEntry("Vitamin C", "Vitamin C (mg)", None, Some("mg")),
      OrderEntry("Vitamin D (IU)", "Vitamin D (mcg)", Some(""), Some("IU")),
      OrderEntry("Vitamin E", "Vitamin E (mg)", None, Some("mg")),
      OrderEntry("Vitamin K", "Vitamin K (mcg)", None, Some("mcg")),
      OrderEntry("Thiamin", "Thiamin (mg)", None, Some("mg")),
      OrderEntry("Taurine", "Taurine (mg)", None, Some("mg")),
      OrderEntry("L-carnitine", "L-carnitine (mg)", None, Some("mg")),
      OrderEntry("Riboflavin", "Riboflavin (mg)", None, Some("mg")),
      OrderEntry("Niacin", "Niacin (mg)", None, Some("mg")),
      OrderEntry("Vitamin B6", "Vitamin B6 (mg)", None, Some("mg")),
      OrderEntry("Folate", "Folate", Some(" (mcg DFE**)"), Some("mcg DFE")),
      OrderEntry("Folic Acid", "Folic Acid (mcg)", None, Some("mcg")),
      OrderEntry("Vitamin B12", "Vitamin B12 (mcg)", None, Some("mcg")),
      OrderEntry("Pantothenic Acid", "Pantothenic Acid (mg)", None, Some("mg")),
      OrderEntry("Biotin", "Biotin (mcg)", None, Some("mcg")),
      OrderEntry("Choline", "Choline (mg)", None, Some("mg")),
      OrderEntry("Water", "Water (mL)", None, Some("mL")),
      OrderEntry("Protein", "Protein (g)", None, Some("g")),
      OrderEntry("Total Carb.", "Total Carb. (g)", None, Some("g")),
      OrderEntry("Fat", "Fat (g)", None, Some("g")),
      OrderEntry("Dietary Fiber", "Dietary Fiber (g)", None, Some("g"))
    ]
  }

  /** The age/sex brackets offered to the user, pediatric then adult. */
  function AgeSexOptions(): seq<string> {
    [
      "0-6 months (Male)",
      "0-6 months (Female)",
      "7-12 months (Male)",
      "7-12 months (Female)",
      "1-3 years (Male)",
      "1-3 years (Female)",
      "4-8 years (Male)",
      "4-8 years (Female)",
      "9-13 years (Male)",
      "9-13 years (Female)",
      "14-18 years (Male)",
      "14-18 years (Female)",
      "19-30 years (Male)",
      "19-30 years (Female)",
      "31-50 years (Male)",
      "31-50 years (Female)",
      "51-70 years (Male)",
      "51-70 years (Female)",
      "70+ years (Male)",
      "70+ years (Female)"
    ]
  }

  const Months0To6Male: AgeSexDris := map[
    "Sodium" := NutrientDri(Some(120.0), "mg"),
    "Potassium" := NutrientDri(Some(400.0), "mg"),
    "Chloride" := NutrientDri(Some(180.0), "mg"),
    "Calcium" := NutrientDri(Some(200.0), "mg"),
    "Phosphorus" := NutrientDri(Some(100.0), "mg"),
    "Magnesium" := NutrientDri(Some(30.0), "mg"),
    "Copper" := NutrientDri(Some(200.0), "mcg"),
    "Selenium" := NutrientDri(Some(15.0), "mcg"),
    "Zinc" := NutrientDri(Some(2.0), "mg"),
    "Chromium" := NutrientDri(Some(0.2), "mcg"),
    "Manganese" := NutrientDri(Some(3.0), "mcg"),
    "Molybdenum" := NutrientDri(Some(2.0), "mcg"),
    "Iodine" := NutrientDri(Some(110.0), "mcg"),
    "Iron" := NutrientDri(Some(0.27), "mg"),
    "Vitamin A (IU)" := NutrientDri(Some(1333.0), "IU"),
    "Vitamin C" := NutrientDri(Some(40.0), "mg"),
    "Vitamin D (IU)" := NutrientDri(Some(400.0), "IU"),
    "Vitamin E" := NutrientDri(Some(4.0), "mg"),
    "Vitamin K" := NutrientDri(Some(2.0), "mcg"),
    "Thiamin" := NutrientDri(Some(0.2), "mg"),
    "Riboflavin" := NutrientDri(Some(0.3), "mg"),
    "Niacin" := NutrientDri(Some(2.0), "mg"),
    "Vitamin B6" := NutrientDri(Some(0.1), "mg"),
    "Folate" := NutrientDri(Some(65.0), "mcg DFE"),
    "Vitamin B12" := NutrientDri(Some(0.4), "mcg"),
    "Pantothenic Acid" := NutrientDri(Some(1.7), "mg"),
    "Biotin" := NutrientDri(Some(5.0), "mcg"),
    "Choline" := NutrientDri(Some(125.0), "mg"),
    "Protein" := NutrientDri(Some(9.1), "g"),
    "Dietary Fiber" := NutrientDri(None, "g")
  ]

  const Months0To6Female: AgeSexDris := map[
    "Sodium" := NutrientDri(Some(120.0), "mg"),
    "Potassium" := NutrientDri(Some(400.0), "mg"),
    "Chloride" := NutrientDri(Some(180.0), "mg"),
    "Calcium" := NutrientDri(Some(200.0), "mg"),
    "Phosphorus" := NutrientDri(Some(100.0), "mg"),
    "Magnesium" := NutrientDri(Some(30.0), "mg"),
    "Copper" := NutrientDri(Some(200.0), "mcg"),
    "Selenium" := NutrientDri(Some(15.0), "mcg"),
    "Zinc" := NutrientDri(Some(2.0), "mg"),
    "Chromium" := NutrientDri(Some(0.2), "mcg"),
    "Manganese" := NutrientDri(Some(3.0), "mcg"),
    "Molybdenum" := NutrientDri(Some(2.0), "mcg"),
    "Iodine" := NutrientDri(Some(110.0), "mcg"),
    "Iron" := NutrientDri(Some(0.27), "mg"),
    "Vitamin A (IU)" := NutrientDri(Some(1333.0), "IU"),
    "Vitamin C" := NutrientDri(Some(40.0), "mg"),
    "Vitamin D (IU)" := NutrientDri(Some(400.0), "IU"),
    "Vitamin E" := NutrientDri(Some(4.0), "mg"),
    "Vitamin K" := NutrientDri(Some(2.0), "mcg"),
    "Thiamin" := NutrientDri(Some(0.2), "mg"),
    "Riboflavin" := NutrientDri(Some(0.3), "mg"),
    "Niacin" := NutrientDri(Some(2.0), "mg"),
    "Vitamin B6" := NutrientDri(Some(0.1), "mg"),
    "Folate" := NutrientDri(Some(65.0), "mcg DFE"),
    "Vitamin B12" := NutrientDri(Some(0.4), "mcg"),
    "Pantothenic Acid" := NutrientDri(Some(1.7), "mg"),
    "Biotin" := NutrientDri(Some(5.0), "mcg"),
    "Choline" := NutrientDri(Some(125.0), "mg"),
    "Protein" := NutrientDri(Some(9.1), "g"),
    "Dietary Fiber" := NutrientDri(None, "g")
  ]

  const Months7To12Male: AgeSexDris := map[
    "Sodium" := NutrientDri(Some(370.0), "mg"),
    "Potassium" := NutrientDri(Some(700.0), "mg"),
    "Chloride" := NutrientDri(Some(570.0), "mg"),
    "Calcium" := NutrientDri(Some(260.0), "mg"),
    "Phosphorus" := NutrientDri(Some(275.0), "mg"),
    "Magnesium" := NutrientDri(Some(75.0), "mg"),
    "Copper" := NutrientDri(Some(220.0), "mcg"),
    "Selenium" := NutrientDri(Some(20.0), "mcg"),
    "Zinc" := NutrientDri(Some(3.0), "mg"),
    "Chromium" := NutrientDri(Some(5.5), "mcg"),
    "Manganese" := NutrientDri(Some(600.0), "mcg"),
    "Molybdenum" := NutrientDri(Some(3.0), "mcg"),
    "Iodine" := NutrientDri(Some(130.0), "mcg"),
    "Iron" := NutrientDri(Some(11.0), "mg"),
    "Vitamin A (IU)" := NutrientDri(Some(1667.0), "IU"),
    "Vitamin C" := NutrientDri(Some(50.0), "mg"),
    "Vitamin D (IU)" := NutrientDri(Some(400.0), "IU"),
    "Vitamin E" := NutrientDri(Some(5.0), "mg"),
    "Vitamin K" := NutrientDri(Some(2.5), "mcg"),
    "Thiamin" := NutrientDri(Some(0.3), "mg"),
    "Riboflavin" := NutrientDri(Some(0.4), "mg"),
    "Niacin" := NutrientDri(Some(4.0), "mg"),
    "Vitamin B6" := NutrientDri(Some(0.3), "mg"),
    "Folate" := NutrientDri(Some(80.0), "mcg DFE"),
    "Vitamin B12" := NutrientDri(Some(0.5), "mcg"),
    "Pantothenic Acid" := NutrientDri(Some(1.8), "mg"),
    "Biotin" := NutrientDri(Some(6.0), "mcg"),
    "Choline" := NutrientDri(Some(150.0), "mg"),
    "Protein" := NutrientDri(Some(11.0), "g"),
    "Dietary Fiber" := NutrientDri(None, "g")
  ]

  const Months7To12Female: AgeSexDris := map[
    "Sodium" := NutrientDri(Some(370.0), "mg"),
    "Potassium" := NutrientDri(Some(700.0), "mg"),
    "Chloride" := NutrientDri(Some(570.0), "mg"),
    "Calcium" := NutrientDri(Some(260.0), "mg"),
    "Phosphorus" := NutrientDri(Some(275.0), "mg"),
    "Magnesium" := NutrientDri(Some(75.0), "mg"),
    "Copper" := NutrientDri(Some(220.0), "mcg"),
    "Selenium" := NutrientDri(Some(20.0), "mcg"),
    "Zinc" := NutrientDri(Some(3.0), "mg"),
    "Chromium" := NutrientDri(Some(5.5), "mcg"),
    "Manganese" := NutrientDri(Some(600.0), "mcg"),
    "Molybdenum" := NutrientDri(Some(3.0), "mcg"),
    "Iodine" := NutrientDri(Some(130.0), "mcg"),
    "Iron" := NutrientDri(Some(11.0), "mg"),
    "Vitamin A (IU)" := NutrientDri(Some(1667.0), "IU"),
    "Vitamin C" := NutrientDri(Some(50.0), "mg"),
    "Vitamin D (IU)" := NutrientDri(Some(400.0), "IU"),
    "Vitamin E" := NutrientDri(Some(5.0), "mg"),
    "Vitamin K" := NutrientDri(Some(2.5), "mcg"),
    "Thiamin" := NutrientDri(Some(0.3), "mg"),
    "Riboflavin" := NutrientDri(Some(0.4), "mg"),
    "Niacin" := NutrientDri(Some(4.0), "mg"),
    "Vitamin B6" := NutrientDri(Some(0.3), "mg"),
    "Folate" := NutrientDri(Some(80.0), "mcg DFE"),
    "Vitamin B12" := NutrientDri(Some(0.5), "mcg"),
    "Pantothenic Acid" := NutrientDri(Some(1.8), "mg"),
    "Biotin" := NutrientDri(Some(6.0), "mcg"),
    "Choline" := NutrientDri(Some(150.0), "mg"),
    "Protein" := NutrientDri(Some(11.0), "g"),
    "Dietary Fiber" := NutrientDri(None, "g")
  ]

  const Years1To3Male: AgeSexDris := map[
    "Sodium" := NutrientDri(Some(1000.0), "mg"),
    "Potassium" := NutrientDri(Some(3000.0), "mg"),
    "Chloride" := NutrientDri(Some(1500.0), "mg"),
    "Calcium" := NutrientDri(Some(700.0), "mg"),
    "Phosphorus" := NutrientDri(Some(460.0), "mg"),
    "Magnesium" := NutrientDri(Some(80.0), "mg"),
    "Copper" := NutrientDri(Some(340.0), "mcg"),
    "Selenium" := NutrientDri(Some(20.0), "mcg"),
    "Zinc" := NutrientDri(Some(3.0), "mg"),
    "Chromium" := NutrientDri(Some(11.0), "mcg"),
    "Manganese" := NutrientDri(Some(1200.0), "mcg"),
    "Molybdenum" := NutrientDri(Some(17.0), "mcg"),
    "Iodine" := NutrientDri(Some(90.0), "mcg"),
    "Iron" := NutrientDri(Some(7.0), "mg"),
    "Vitamin A (IU)" := NutrientDri(Some(1000.0), "IU"),
    "Vitamin C" := NutrientDri(Some(15.0), "mg"),
    "Vitamin D (IU)" := NutrientDri(Some(600.0), "IU"),
    "Vitamin E" := NutrientDri(Some(6.0), "mg"),
    "Vitamin K" := NutrientDri(Some(30.0), "mcg"),
    "Thiamin" := NutrientDri(Some(0.5), "mg"),
    "Riboflavin" := NutrientDri(Some(0.5), "mg"),
    "Niacin" := NutrientDri(Some(6.0), "mg"),
    "Vitamin B6" := NutrientDri(Some(0.5), "mg"),
    "Folate" := NutrientDri(Some(150.0), "mcg DFE"),
    "Vitamin B12" := NutrientDri(Some(0.9), "mcg"),
    "Pantothenic Acid" := NutrientDri(Some(2.0), "mg"),
    "Biotin" := NutrientDri(Some(8.0), "mcg"),
    "Choline" := NutrientDri(Some(200.0), "mg"),
    "Protein" := NutrientDri(Some(13.0), "g"),
    "Dietary Fiber" := NutrientDri(Some(19.0), "g")
  ]

  const Years1To3Female: AgeSexDris := map[
    "Sodium" := NutrientDri(Some(1000.0), "mg"),
    "Potassium" := NutrientDri(Some(3000.0), "mg"),
    "Chloride" := NutrientDri(Some(1500.0), "mg"),
    "Calcium" := NutrientDri(Some(700.0), "mg"),
    "Phosphorus" := NutrientDri(Some(460.0), "mg"),
    "Magnesium" := NutrientDri(Some(80.0), "mg"),
    "Copper" := NutrientDri(Some(340.0), "mcg"),
    "Selenium" := NutrientDri(Some(20.0), "mcg"),
    "Zinc" := NutrientDri(Some(3.0), "mg"),
    "Chromium" := NutrientDri(Some(11.0), "mcg"),
    "Manganese" := NutrientDri(Some(1200.0), "mcg"),
    "Molybdenum" := NutrientDri(Some(17.0), "mcg"),
    "Iodine" := NutrientDri(Some(90.0), "mcg"),
    "Iron" := NutrientDri(Some(7.0), "mg"),
    "Vitamin A (IU)" := NutrientDri(Some(1000.0), "IU"),
    "Vitamin C" := NutrientDri(Some(15.0), "mg"),
    "Vitamin D (IU)" := NutrientDri(Some(600.0), "IU"),
    "Vitamin E" := NutrientDri(Some(6.0), "mg"),
    "Vitamin K" := NutrientDri(Some(30.0), "mcg"),
    "Thiamin" := NutrientDri(Some(0.5), "mg"),
    "Riboflavin" := NutrientDri(Some(0.5), "mg"),
    "Niacin" := NutrientDri(Some(6.0), "mg"),
    "Vitamin B6" := NutrientDri(Some(0.5), "mg"),
    "Folate" := NutrientDri(Some(150.0), "mcg DFE"),
    "Vitamin B12" := NutrientDri(Some(0.9), "mcg"),
    "Pantothenic Acid" := NutrientDri(Some(2.0), "mg"),
    "Biotin" := NutrientDri(Some(8.0), "mcg"),
    "Choline" := NutrientDri(Some(200.0), "mg"),
    "Protein" := NutrientDri(Some(13.0), "g"),
    "Dietary Fiber" := NutrientDri(Some(19.0), "g")
  ]

  const Years4To8Male: AgeSexDris := map[
    "Sodium" := NutrientDri(Some(1200.0), "mg"),
    "Potassium" := NutrientDri(Some(3800.0), "mg"),
    "Chloride" := NutrientDri(Some(1900.0), "mg"),
    "Calcium" := NutrientDri(Some(1000.0), "mg"),
    "Phosphorus" := NutrientDri(Some(500.0), "mg"),
    "Magnesium" := NutrientDri(Some(130.0), "mg"),
    "Copper" := NutrientDri(Some(440.0), "mcg"),
    "Selenium" := NutrientDri(Some(30.0), "mcg"),
    "Zinc" := NutrientDri(Some(5.0), "mg"),
    "Chromium" := NutrientDri(Some(15.0), "mcg"),
    "Manganese" := NutrientDri(Some(1500.0), "mcg"),
    "Molybdenum" := NutrientDri(Some(22.0), "mcg"),
    "Iodine" := NutrientDri(Some(90.0), "mcg"),
    "Iron" := NutrientDri(Some(10.0), "mg"),
    "Vitamin A (IU)" := NutrientDri(Some(1333.0), "IU"),
    "Vitamin C" := NutrientDri(Some(25.0), "mg"),
    "Vitamin D (IU)" := NutrientDri(Some(600.0), "IU"),
    "Vitamin E" := NutrientDri(Some(7.0), "mg"),
    "Vitamin K" := NutrientDri(Some(55.0), "mcg"),
    "Thiamin" := NutrientDri(Some(0.6), "mg"),
    "Riboflavin" := NutrientDri(Some(0.6), "mg"),
    "Niacin" := NutrientDri(Some(8.0), "mg"),
    "Vitamin B6" := NutrientDri(Some(0.6), "mg"),
    "Folate" := NutrientDri(Some(200.0), "mcg DFE"),
    "Vitamin B12" := NutrientDri(Some(1.2), "mcg"),
    "Pantothenic Acid" := NutrientDri(Some(3.0), "mg"),
    "Biotin" := NutrientDri(Some(12.0), "mcg"),
    "Choline" := NutrientDri(Some(250.0), "mg"),
    "Protein" := NutrientDri(Some(19.0), "g"),
    "Dietary Fiber" := NutrientDri(Some(25.0), "g")
  ]

  const Years4To8Female: AgeSexDris := map[
    "Sodium" := NutrientDri(Some(1200.0), "mg"),
    "Potassium" := NutrientDri(Some(3800.0), "mg"),
    "Chloride" := NutrientDri(Some(1900.0), "mg"),
    "Calcium" := NutrientDri(Some(1000.0), "mg"),
    "Phosphorus" := NutrientDri(Some(500.0), "mg"),
    "Magnesium" := NutrientDri(Some(130.0), "mg"),
    "Copper" := NutrientDri(Some(440.0), "mcg"),
    "Selenium" := NutrientDri(Some(30.0), "mcg"),
    "Zinc" := NutrientDri(Some(5.0), "mg"),
    "Chromium" := NutrientDri(Some(15.0), "mcg"),
    "Manganese" := NutrientDri(Some(1500.0), "mcg"),
    "Molybdenum" := NutrientDri(Some(22.0), "mcg"),
    "Iodine" := NutrientDri(Some(90.0), "mcg"),
    "Iron" := NutrientDri(Some(10.0), "mg"),
    "Vitamin A (IU)" := NutrientDri(Some(1333.0), "IU"),
    "Vitamin C" := NutrientDri(Some(25.0), "mg"),
    "Vitamin D (IU)" := NutrientDri(Some(600.0), "IU"),
    "Vitamin E" := NutrientDri(Some(7.0), "mg"),
    "Vitamin K" := NutrientDri(Some(55.0), "mcg"),
    "Thiamin" := NutrientDri(Some(0.6), "mg"),
    "Riboflavin" := NutrientDri(Some(0.6), "mg"),
    "Niacin" := NutrientDri(Some(8.0), "mg"),
    "Vitamin B6" := NutrientDri(Some(0.6), "mg"),
    "Folate" := NutrientDri(Some(200.0), "mcg DFE"),
    "Vitamin B12" := NutrientDri(Some(1.2), "mcg"),
    "Pantothenic Acid" := NutrientDri(Some(3.0), "mg"),
    "Biotin" := NutrientDri(Some(12.0), "mcg"),
    "Choline" := NutrientDri(Some(250.0), "mg"),
    "Protein" := NutrientDri(Some(19.0), "g"),
    "Dietary Fiber" := NutrientDri(Some(25.0), "g")
  ]

  const Years9To13Male: AgeSexDris := map[
    "Sodium" := NutrientDri(Some(1500.0), "mg"),
    "Potassium" := NutrientDri(Some(4500.0), "mg"),
    "Chloride" := NutrientDri(Some(2300.0), "mg"),
    "Calcium" := NutrientDri(Some(1300.0), "mg"),
    "Phosphorus" := NutrientDri(Some(1250.0), "mg"),
    "Magnesium" := NutrientDri(Some(240.0), "mg"),
    "Copper" := NutrientDri(Some(700.0), "mcg"),
    "Selenium" := NutrientDri(Some(40.0), "mcg"),
    "Zinc" := NutrientDri(Some(8.0), "mg"),
    "Chromium" := NutrientDri(Some(25.0), "mcg"),
    "Manganese" := NutrientDri(Some(1900.0), "mcg"),
    "Molybdenum" := NutrientDri(Some(34.0), "mcg"),
    "Iodine" := NutrientDri(Some(120.0), "mcg"),
    "Iron" := NutrientDri(Some(8.0), "mg"),
    "Vitamin A (IU)" := NutrientDri(Some(2000.0), "IU"),
    "Vitamin C" := NutrientDri(Some(45.0), "mg"),
    "Vitamin D (IU)" := NutrientDri(Some(600.0), "IU"),
    "Vitamin E" := NutrientDri(Some(11.0), "mg"),
    "Vitamin K" := NutrientDri(Some(60.0), "mcg"),
    "Thiamin" := NutrientDri(Some(0.9), "mg"),
    "Riboflavin" := NutrientDri(Some(0.9), "mg"),
    "Niacin" := NutrientDri(Some(12.0), "mg"),
    "Vitamin B6" := NutrientDri(Some(1.0), "mg"),
    "Folate" := NutrientDri(Some(300.0), "mcg DFE"),
    "Vitamin B12" := NutrientDri(Some(1.8), "mcg"),
    "Pantothenic Acid" := NutrientDri(Some(4.0), "mg"),
    "Biotin" := NutrientDri(Some(20.0), "mcg"),
    "Choline" := NutrientDri(Some(375.0), "mg"),
    "Protein" := NutrientDri(Some(34.0), "g"),
    "Dietary Fiber" := NutrientDri(Some(31.0), "g")
  ]

  const Years9To13Female: AgeSexDris := map[
    "Sodium" := NutrientDri(Some(1500.0), "mg"),
    "Potassium" := NutrientDri(Some(4500.0), "mg"),
    "Chloride" := NutrientDri(Some(2300.0), "mg"),
    "Calcium" := NutrientDri(Some(1300.0), "mg"),
    "Phosphorus" := NutrientDri(Some(1250.0), "mg"),
    "Magnesium" := NutrientDri(Some(240.0), "mg"),
    "Copper" := NutrientDri(Some(700.0), "mcg"),
    "Selenium" := NutrientDri(Some(40.0), "mcg"),
    "Zinc" := NutrientDri(Some(8.0), "mg"),
    "Chromium" := NutrientDri(Some(21.0), "mcg"),
    "Manganese" := NutrientDri(Some(1600.0), "mcg"),
    "Molybdenum" := NutrientDri(Some(34.0), "mcg"),
    "Iodine" := NutrientDri(Some(120.0), "mcg"),
    "Iron" := NutrientDri(Some(8.0), "mg"),
    "Vitamin A (IU)" := NutrientDri(Some(2000.0), "IU"),
    "Vitamin C" := NutrientDri(Some(45.0), "mg"),
    "Vitamin D (IU)" := NutrientDri(Some(600.0), "IU"),
    "Vitamin E" := NutrientDri(Some(11.0), "mg"),
    "Vitamin K" := NutrientDri(Some(60.0), "mcg"),
    "Thiamin" := NutrientDri(Some(0.9), "mg"),
    "Riboflavin" := NutrientDri(Some(0.9), "mg"),
    "Niacin" := NutrientDri(Some(12.0), "mg"),
    "Vitamin B6" := NutrientDri(Some(1.0), "mg"),
    "Folate" := NutrientDri(Some(300.0), "mcg DFE"),
    "Vitamin B12" := NutrientDri(Some(1.8), "mcg"),
    "Pantothenic Acid" := NutrientDri(Some(4.0), "mg"),
    "Biotin" := NutrientDri(Some(20.0), "mcg"),
    "Choline" := NutrientDri(Some(375.0), "mg"),
    "Protein" := NutrientDri(Some(34.0), "g"),
    "Dietary Fiber" := NutrientDri(Some(26.0), "g")
  ]

  const Years14To18Male: AgeSexDris := map[
    "Sodium" := NutrientDri(Some(1500.0), "mg"),
    "Potassium" := NutrientDri(Some(4700.0), "mg"),
    "Chloride" := NutrientDri(Some(2300.0), "mg"),
    "Calcium" := NutrientDri(Some(1300.0), "mg"),
    "Phosphorus" := NutrientDri(Some(1250.0), "mg"),
    "Magnesium" := NutrientDri(Some(410.0), "mg"),
    "Copper" := NutrientDri(Some(890.0), "mcg"),
    "Selenium" := NutrientDri(Some(55.0), "mcg"),
    "Zinc" := NutrientDri(Some(11.0), "mg"),
    "Chromium" := NutrientDri(Some(35.0), "mcg"),
    "Manganese" := NutrientDri(Some(2200.0), "mcg"),
    "Molybdenum" := NutrientDri(Some(43.0), "mcg"),
    "Iodine" := NutrientDri(Some(150.0), "mcg"),
    "Iron" := NutrientDri(Some(11.0), "mg"),
    "Vitamin A (IU)" := NutrientDri(Some(3000.0), "IU"),
    "Vitamin C" := NutrientDri(Some(75.0), "mg"),
    "Vitamin D (IU)" := NutrientDri(Some(600.0), "IU"),
    "Vitamin E" := NutrientDri(Some(15.0), "mg"),
    "Vitamin K" := NutrientDri(Some(75.0), "mcg"),
    "Thiamin" := NutrientDri(Some(1.2), "mg"),
    "Riboflavin" := NutrientDri(Some(1.3), "mg"),
    "Niacin" := NutrientDri(Some(16.0), "mg"),
    "Vitamin B6" := NutrientDri(Some(1.3), "mg"),
    "Folate" := NutrientDri(Some(400.0), "mcg DFE"),
    "Vitamin B12" := NutrientDri(Some(2.4), "mcg"),
    "Pantothenic Acid" := NutrientDri(Some(5.0), "mg"),
    "Biotin" := NutrientDri(Some(25.0), "mcg"),
    "Choline" := NutrientDri(Some(550.0), "mg"),
    "Protein" := NutrientDri(Some(52.0), "g"),
    "Dietary Fiber" := NutrientDri(Some(38.0), "g")
  ]

  const Years14To18Female: AgeSexDris := map[
    "Sodium" := NutrientDri(Some(1500.0), "mg"),
    "Potassium" := NutrientDri(Some(4700.0), "mg"),
    "Chloride" := NutrientDri(Some(2300.0), "mg"),
    "Calcium" := NutrientDri(Some(1300.0), "mg"),
    "Phosphorus" := NutrientDri(Some(1250.0), "mg"),
    "Magnesium" := NutrientDri(Some(360.0), "mg"),
    "Copper" := NutrientDri(Some(890.0), "mcg"),
    "Selenium" := NutrientDri(Some(55.0), "mcg"),
    "Zinc" := NutrientDri(Some(9.0), "mg"),
    "Chromium" := NutrientDri(Some(24.0), "mcg"),
    "Manganese" := NutrientDri(Some(1600.0), "mcg"),
    "Molybdenum" := NutrientDri(Some(43.0), "mcg"),
    "Iodine" := NutrientDri(Some(150.0), "mcg"),
    "Iron" := NutrientDri(Some(15.0), "mg"),
    "Vitamin A (IU)" := NutrientDri(Some(2333.0), "IU"),
    "Vitamin C" := NutrientDri(Some(65.0), "mg"),
    "Vitamin D (IU)" := NutrientDri(Some(600.0), "IU"),
    "Vitamin E" := NutrientDri(Some(15.0), "mg"),
    "Vitamin K" := NutrientDri(Some(75.0), "mcg"),
    "Thiamin" := NutrientDri(Some(1.0), "mg"),
    "Riboflavin" := NutrientDri(Some(1.0), "mg"),
    "Niacin" := NutrientDri(Some(14.0), "mg"),
    "Vitamin B6" := NutrientDri(Some(1.2), "mg"),
    "Folate" := NutrientDri(Some(400.0), "mcg DFE"),
    "Vitamin B12" := NutrientDri(Some(2.4), "mcg"),
    "Pantothenic Acid" := NutrientDri(Some(5.0), "mg"),
    "Biotin" := NutrientDri(Some(25.0), "mcg"),
    "Choline" := NutrientDri(Some(400.0), "mg"),
    "Protein" := NutrientDri(Some(46.0), "g"),
    "Dietary Fiber" := NutrientDri(Some(26.0), "g")
  ]

  const Years19To30Male: AgeSexDris := map[
    "Sodium" := NutrientDri(Some(1500.0), "mg"),
    "Potassium" := NutrientDri(Some(3400.0), "mg"),
    "Chloride" := NutrientDri(Some(2300.0), "mg"),
    "Calcium" := NutrientDri(Some(1000.0), "mg"),
    "Phosphorus" := NutrientDri(Some(700.0), "mg"),
    "Magnesium" := NutrientDri(Some(400.0), "mg"),
    "Copper" := NutrientDri(Some(900.0), "mcg"),
    "Selenium" := NutrientDri(Some(55.0), "mcg"),
    "Zinc" := NutrientDri(Some(11.0), "mg"),
    "Chromium" := NutrientDri(Some(35.0), "mcg"),
    "Manganese" := NutrientDri(Some(2300.0), "mcg"),
    "Molybdenum" := NutrientDri(Some(45.0), "mcg"),
    "Iodine" := NutrientDri(Some(150.0), "mcg"),
    "Iron" := NutrientDri(Some(8.0), "mg"),
    "Vitamin A (IU)" := NutrientDri(Some(3000.0), "IU"),
    "Vitamin C" := NutrientDri(Some(90.0), "mg"),
    "Vitamin D (IU)" := NutrientDri(Some(600.0), "IU"),
    "Vitamin E" := NutrientDri(Some(15.0), "mg"),
    "Vitamin K" := NutrientDri(Some(120.0), "mcg"),
    "Thiamin" := NutrientDri(Some(1.2), "mg"),
    "Riboflavin" := NutrientDri(Some(1.3), "mg"),
    "Niacin" := NutrientDri(Some(16.0), "mg"),
    "Vitamin B6" := NutrientDri(Some(1.3), "mg"),
    "Folate" := NutrientDri(Some(400.0), "mcg DFE"),
    "Vitamin B12" := NutrientDri(Some(2.4), "mcg"),
    "Pantothenic Acid" := NutrientDri(Some(5.0), "mg"),
    "Biotin" := NutrientDri(Some(30.0), "mcg"),
    "Choline" := NutrientDri(Some(550.0), "mg"),
    "Protein" := NutrientDri(Some(56.0), "g"),
    "Dietary Fiber" := NutrientDri(Some(38.0), "g")
  ]

  const Years19To30Female: AgeSexDris := map[
    "Sodium" := NutrientDri(Some(1500.0), "mg"),
    "Potassium" := NutrientDri(Some(2600.0), "mg"),
    "Chloride" := NutrientDri(Some(2300.0), "mg"),
    "Calcium" := NutrientDri(Some(1000.0), "mg"),
    "Phosphorus" := NutrientDri(Some(700.0), "mg"),
    "Magnesium" := NutrientDri(Some(310.0), "mg"),
    "Copper" := NutrientDri(Some(900.0), "mcg"),
    "Selenium" := NutrientDri(Some(55.0), "mcg"),
    "Zinc" := NutrientDri(Some(8.0), "mg"),
    "Chromium" := NutrientDri(Some(25.0), "mcg"),
    "Manganese" := NutrientDri(Some(1800.0), "mcg"),
    "Molybdenum" := NutrientDri(Some(45.0), "mcg"),
    "Iodine" := NutrientDri(Some(150.0), "mcg"),
    "Iron" := NutrientDri(Some(18.0), "mg"),
    "Vitamin A (IU)" := NutrientDri(Some(2333.0), "IU"),
    "Vitamin C" := NutrientDri(Some(75.0), "mg"),
    "Vitamin D (IU)" := NutrientDri(Some(600.0), "IU"),
    "Vitamin E" := NutrientDri(Some(15.0), "mg"),
    "Vitamin K" := NutrientDri(Some(90.0), "mcg"),
    "Thiamin" := NutrientDri(Some(1.1), "mg"),
    "Riboflavin" := NutrientDri(Some(1.1), "mg"),
    "Niacin" := NutrientDri(Some(14.0), "mg"),
    "Vitamin B6" := NutrientDri(Some(1.3), "mg"),
    "Folate" := NutrientDri(Some(400.0), "mcg DFE"),
    "Vitamin B12" := NutrientDri(Some(2.4), "mcg"),
    "Pantothenic Acid" := NutrientDri(Some(5.0), "mg"),
    "Biotin" := NutrientDri(Some(30.0), "mcg"),
    "Choline" := NutrientDri(Some(425.0), "mg"),
    "Protein" := NutrientDri(Some(46.0), "g"),
    "Dietary Fiber" := NutrientDri(Some(25.0), "g")
  ]

  const Years31To50Male: AgeSexDris := map[
    "Sodium" := NutrientDri(Some(1500.0), "mg"),
    "Potassium" := NutrientDri(Some(3400.0), "mg"),
    "Chloride" := NutrientDri(Some(2300.0), "mg"),
    "Calcium" := NutrientDri(Some(1000.0), "mg"),
    "Phosphorus" := NutrientDri(Some(700.0), "mg"),
    "Magnesium" := NutrientDri(Some(420.0), "mg"),
    "Copper" := NutrientDri(Some(900.0), "mcg"),
    "Selenium" := NutrientDri(Some(55.0), "mcg"),
    "Zinc" := NutrientDri(Some(11.0), "mg"),
    "Chromium" := NutrientDri(Some(35.0), "mcg"),
    "Manganese" := NutrientDri(Some(2300.0), "mcg"),
    "Molybdenum" := NutrientDri(Some(45.0), "mcg"),
    "Iodine" := NutrientDri(Some(150.0), "mcg"),
    "Iron" := NutrientDri(Some(8.0), "mg"),
    "Vitamin A (IU)" := NutrientDri(Some(3000.0), "IU"),
    "Vitamin C" := NutrientDri(Some(90.0), "mg"),
    "Vitamin D (IU)" := NutrientDri(Some(600.0), "IU"),
    "Vitamin E" := NutrientDri(Some(15.0), "mg"),
    "Vitamin K" := NutrientDri(Some(120.0), "mcg"),
    "Thiamin" := NutrientDri(Some(1.2), "mg"),
    "Riboflavin" := NutrientDri(Some(1.3), "mg"),
    "Niacin" := NutrientDri(Some(16.0), "mg"),
    "Vitamin B6" := NutrientDri(Some(1.3), "mg"),
    "Folate" := NutrientDri(Some(400.0), "mcg DFE"),
    "Vitamin B12" := NutrientDri(Some(2.4), "mcg"),
    "Pantothenic Acid" := NutrientDri(Some(5.0), "mg"),
    "Biotin" := NutrientDri(Some(30.0), "mcg"),
    "Choline" := NutrientDri(Some(550.0), "mg"),
    "Protein" := NutrientDri(Some(56.0), "g"),
    "Dietary Fiber" := NutrientDri(Some(38.0), "g")
  ]

  const Years31To50Female: AgeSexDris := map[
    "Sodium" := NutrientDri(Some(1500.0), "mg"),
    "Potassium" := NutrientDri(Some(2600.0), "mg"),
    "Chloride" := NutrientDri(Some(2300.0), "mg"),
    "Calcium" := NutrientDri(Some(1000.0), "mg"),
    "Phosphorus" := NutrientDri(Some(700.0), "mg"),
    "Magnesium" := NutrientDri(Some(320.0), "mg"),
    "Copper" := NutrientDri(Some(900.0), "mcg"),
    "Selenium" := NutrientDri(Some(55.0), "mcg"),
    "Zinc" := NutrientDri(Some(8.0), "mg"),
    "Chromium" := NutrientDri(Some(25.0), "mcg"),
    "Manganese" := NutrientDri(Some(1800.0), "mcg"),
    "Molybdenum" := NutrientDri(Some(45.0), "mcg"),
    "Iodine" := NutrientDri(Some(150.0), "mcg"),
    "Iron" := NutrientDri(Some(18.0), "mg"),
    "Vitamin A (IU)" := NutrientDri(Some(2333.0), "IU"),
    "Vitamin C" := NutrientDri(Some(75.0), "mg"),
    "Vitamin D (IU)" := NutrientDri(Some(600.0), "IU"),
    "Vitamin E" := NutrientDri(Some(15.0), "mg"),
    "Vitamin K" := NutrientDri(Some(90.0), "mcg"),
    "Thiamin" := NutrientDri(Some(1.1), "mg"),
    "Riboflavin" := NutrientDri(Some(1.1), "mg"),
    "Niacin" := NutrientDri(Some(14.0), "mg"),
    "Vitamin B6" := NutrientDri(Some(1.3), "mg"),
    "Folate" := NutrientDri(Some(400.0), "mcg DFE"),
    "Vitamin B12" := NutrientDri(Some(2.4), "mcg"),
    "Pantothenic Acid" := NutrientDri(Some(5.0), "mg"),
    "Biotin" := NutrientDri(Some(30.0), "mcg"),
    "Choline" := NutrientDri(Some(425.0), "mg"),
    "Protein" := NutrientDri(Some(46.0), "g"),
    "Dietary Fiber" := NutrientDri(Some(25.0), "g")
  ]

  const Years51To70Male: AgeSexDris := map[
    "Sodium" := NutrientDri(Some(1300.0), "mg"),
    "Potassium" := NutrientDri(Some(3400.0), "mg"),
    "Chloride" := NutrientDri(Some(2000.0), "mg"),
    "Calcium" := NutrientDri(Some(1000.0), "mg"),
    "Phosphorus" := NutrientDri(Some(700.0), "mg"),
    "Magnesium" := NutrientDri(Some(420.0), "mg"),
    "Copper" := NutrientDri(Some(900.0), "mcg"),
    "Selenium" := NutrientDri(Some(55.0), "mcg"),
    "Zinc" := NutrientDri(Some(11.0), "mg"),
    "Chromium" := NutrientDri(Some(30.0), "mcg"),
    "Manganese" := NutrientDri(Some(2300.0), "mcg"),
    "Molybdenum" := NutrientDri(Some(45.0), "mcg"),
    "Iodine" := NutrientDri(Some(150.0), "mcg"),
    "Iron" := NutrientDri(Some(8.0), "mg"),
    "Vitamin A (IU)" := NutrientDri(Some(3000.0), "IU"),
    "Vitamin C" := NutrientDri(Some(90.0), "mg"),
    "Vitamin D (IU)" := NutrientDri(Some(600.0), "IU"),
    "Vitamin E" := NutrientDri(Some(15.0), "mg"),
    "Vitamin K" := NutrientDri(Some(120.0), "mcg"),
    "Thiamin" := NutrientDri(Some(1.2), "mg"),
    "Riboflavin" := NutrientDri(Some(1.3), "mg"),
    "Niacin" := NutrientDri(Some(16.0), "mg"),
    "Vitamin B6" := NutrientDri(Some(1.7), "mg"),
    "Folate" := NutrientDri(Some(400.0), "mcg DFE"),
    "Vitamin B12" := NutrientDri(Some(2.4), "mcg"),
    "Pantothenic Acid" := NutrientDri(Some(5.0), "mg"),
    "Biotin" := NutrientDri(Some(30.0), "mcg"),
    "Choline" := NutrientDri(Some(550.0), "mg"),
    "Protein" := NutrientDri(Some(56.0), "g"),
    "Dietary Fiber" := NutrientDri(Some(30.0), "g")
  ]

  const Years51To70Female: AgeSexDris := map[
    "Sodium" := NutrientDri(Some(1300.0), "mg"),
    "Potassium" := NutrientDri(Some(2600.0), "mg"),
    "Chloride" := NutrientDri(Some(2000.0), "mg"),
    "Calcium" := NutrientDri(Some(1200.0), "mg"),
    "Phosphorus" := NutrientDri(Some(700.0), "mg"),
    "Magnesium" := NutrientDri(Some(320.0), "mg"),
    "Copper" := NutrientDri(Some(900.0), "mcg"),
    "Selenium" := NutrientDri(Some(55.0), "mcg"),
    "Zinc" := NutrientDri(Some(8.0), "mg"),
    "Chromium" := NutrientDri(Some(20.0), "mcg"),
    "Manganese" := NutrientDri(Some(1800.0), "mcg"),
    "Molybdenum" := NutrientDri(Some(45.0), "mcg"),
    "Iodine" := NutrientDri(Some(150.0), "mcg"),
    "Iron" := NutrientDri(Some(8.0), "mg"),
    "Vitamin A (IU)" := NutrientDri(Some(2333.0), "IU"),
    "Vitamin C" := NutrientDri(Some(75.0), "mg"),
    "Vitamin D (IU)" := NutrientDri(Some(600.0), "IU"),
    "Vitamin E" := NutrientDri(Some(15.0), "mg"),
    "Vitamin K" := NutrientDri(Some(90.0), "mcg"),
    "Thiamin" := NutrientDri(Some(1.1), "mg"),
    "Riboflavin" := NutrientDri(Some(1.1), "mg"),
    "Niacin" := NutrientDri(Some(14.0), "mg"),
    "Vitamin B6" := NutrientDri(Some(1.5), "mg"),
    "Folate" := NutrientDri(Some(400.0), "mcg DFE"),
    "Vitamin B12" := NutrientDri(Some(2.4), "mcg"),
    "Pantothenic Acid" := NutrientDri(Some(5.0), "mg"),
    "Biotin" := NutrientDri(Some(30.0), "mcg"),
    "Choline" := NutrientDri(Some(425.0), "mg"),
    "Protein" := NutrientDri(Some(46.0), "g"),
    "Dietary Fiber" := NutrientDri(Some(21.0), "g")
  ]

  const Years70PlusMale: AgeSexDris := map[
    "Sodium" := NutrientDri(Some(1200.0), "mg"),
    "Potassium" := NutrientDri(Some(3400.0), "mg"),
    "Chloride" := NutrientDri(Some(1800.0), "mg"),
    "Calcium" := NutrientDri(Some(1200.0), "mg"),
    "Phosphorus" := NutrientDri(Some(700.0), "mg"),
    "Magnesium" := NutrientDri(Some(420.0), "mg"),
    "Copper" := NutrientDri(Some(900.0), "mcg"),
    "Selenium" := NutrientDri(Some(55.0), "mcg"),
    "Zinc" := NutrientDri(Some(11.0), "mg"),
    "Chromium" := NutrientDri(Some(30.0), "mcg"),
    "Manganese" := NutrientDri(Some(2300.0), "mcg"),
    "Molybdenum" := NutrientDri(Some(45.0), "mcg"),
    "Iodine" := NutrientDri(Some(150.0), "mcg"),
    "Iron" := NutrientDri(Some(8.0), "mg"),
    "Vitamin A (IU)" := NutrientDri(Some(3000.0), "IU"),
    "Vitamin C" := NutrientDri(Some(90.0), "mg"),
    "Vitamin D (IU)" := NutrientDri(Some(800.0), "IU"),
    "Vitamin E" := NutrientDri(Some(15.0), "mg"),
    "Vitamin K" := NutrientDri(Some(120.0), "mcg"),
    "Thiamin" := NutrientDri(Some(1.2), "mg"),
    "Riboflavin" := NutrientDri(Some(1.3), "mg"),
    "Niacin" := NutrientDri(Some(16.0), "mg"),
    "Vitamin B6" := NutrientDri(Some(1.7), "mg"),
    "Folate" := NutrientDri(Some(400.0), "mcg DFE"),
    "Vitamin B12" := NutrientDri(Some(2.4), "mcg"),
    "Pantothenic Acid" := NutrientDri(Some(5.0), "mg"),
    "Biotin" := NutrientDri(Some(30.0), "mcg"),
    "Choline" := NutrientDri(Some(550.0), "mg"),
    "Protein" := NutrientDri(Some(56.0), "g"),
    "Dietary Fiber" := NutrientDri(Some(30.0), "g")
  ]

  const Years70PlusFemale: AgeSexDris := map[
    "Sodium" := NutrientDri(Some(1200.0), "mg"),
    "Potassium" := NutrientDri(Some(2600.0), "mg"),
    "Chloride" := NutrientDri(Some(1800.0), "mg"),
    "Calcium" := NutrientDri(Some(1200.0), "mg"),
    "Phosphorus" := NutrientDri(Some(700.0), "mg"),
    "Magnesium" := NutrientDri(Some(320.0), "mg"),
    "Copper" := NutrientDri(Some(900.0), "mcg"),
    "Selenium" := NutrientDri(Some(55.0), "mcg"),
    "Zinc" := NutrientDri(Some(8.0), "mg"),
    "Chromium" := NutrientDri(Some(20.0), "mcg"),
    "Manganese" := NutrientDri(Some(1800.0), "mcg"),
    "Molybdenum" := NutrientDri(Some(45.0), "mcg"),
    "Iodine" := NutrientDri(Some(150.0), "mcg"),
    "Iron" := NutrientDri(Some(8.0), "mg"),
    "Vitamin A (IU)" := NutrientDri(Some(2333.0), "IU"),
    "Vitamin C" := NutrientDri(Some(75.0), "mg"),
    "Vitamin D (IU)" := NutrientDri(Some(800.0), "IU"),
    "Vitamin E" := NutrientDri(Some(15.0), "mg"),
    "Vitamin K" := NutrientDri(Some(90.0), "mcg"),
    "Thiamin" := NutrientDri(Some(1.1), "mg"),
    "Riboflavin" := NutrientDri(Some(1.1), "mg"),
    "Niacin" := NutrientDri(Some(14.0), "mg"),
    "Vitamin B6" := NutrientDri(Some(1.5), "mg"),
    "Folate" := NutrientDri(Some(400.0), "mcg DFE"),
    "Vitamin B12" := NutrientDri(Some(2.4), "mcg"),
    "Pantothenic Acid" := NutrientDri(Some(5.0), "mg"),
    "Biotin" := NutrientDri(Some(30.0), "mcg"),
    "Choline" := NutrientDri(Some(425.0), "mg"),
    "Protein" := NutrientDri(Some(46.0), "g"),
    "Dietary Fiber" := NutrientDri(Some(21.0), "g")
  ]

  /** `driData`: the reference intakes of every age/sex bracket. */
  const DriData: AllDriData := [
    ("0-6 months (Male)", Months0To6Male),
    ("0-6 months (Female)", Months0To6Female),
    ("7-12 months (Male)", Months7To12Male),
    ("7-12 months (Female)", Months7To12Female),
    ("1-3 years (Male)", Years1To3Male),
    ("1-3 years (Female)", Years1To3Female),
    ("4-8 years (Male)", Years4To8Male),
    ("4-8 years (Female)", Years4To8Female),
    ("9-13 years (Male)", Years9To13Male),
    ("9-13 years (Female)", Years9To13Female),
    ("14-18 years (Male)", Years14To18Male),
    ("14-18 years (Female)", Years14To18Female),
    ("19-30 years (Male)", Years19To30Male),
    ("19-30 years (Female)", Years19To30Female),
    ("31-50 years (Male)", Years31To50Male),
    ("31-50 years (Female)", Years31To50Female),
    ("51-70 years (Male)", Years51To70Male),
    ("51-70 years (Female)", Years51To70Female),
    ("70+ years (Male)", Years70PlusMale),
    ("70+ years (Female)", Years70PlusFemale)
  ]
}
