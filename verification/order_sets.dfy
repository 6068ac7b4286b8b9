/** The nutrient sets the tables are stated against: the nutrients every
    bracket defines, the displayed nutrients without a DRI, and the display
    unit of each nutrient with a DRI. */
module OrderSets {
  import opened DriTables

  /** The 30 nutrients every bracket defines. */
  const BracketKeys: set<string> := {
    "Sodium", "Potassium", "Chloride", "Calcium", "Phosphorus", "Magnesium", "Copper", "Selenium",
    "Zinc", "Chromium", "Manganese", "Molybdenum", "Iodine", "Iron", "Vitamin A (IU)", "Vitamin C",
    "Vitamin D (IU)", "Vitamin E", "Vitamin K", "Thiamin", "Riboflavin", "Niacin", "Vitamin B6",
    "Folate", "Vitamin B12", "Pantothenic Acid", "Biotin", "Choline", "Protein", "Dietary Fiber"}

  /** The displayed nutrients no bracket defines. */
  const NoDriKeys: set<string> :=
    {"Retinol", "β-carotene", "Taurine", "L-carnitine", "Folic Acid", "Water", "Total Carb.", "Fat"}

  /** The keys of a display order, as a set. */
  function OrderKeys(order: seq<OrderEntry>): set<string> {
    set i | 0 <= i < |order| :: order[i].key
  }

  /** The display unit of each nutrient with a DRI. */
  const DisplayUnits: map<string, string> := map[
    "Sodium" := "mg",
    "Potassium" := "mg",
    "Chloride" := "mg",
    "Calcium" := "mg",
    "Phosphorus" := "mg",
    "Magnesium" := "mg",
    "Copper" := "mcg",
    "Selenium" := "mcg",
    "Zinc" := "mg",
    "Chromium" := "mcg",
    "Manganese" := "mg",
    "Molybdenum" := "mcg",
    "Iodine" := "mcg",
    "Iron" := "mg",
    "Vitamin A (IU)" := "IU",
    "Vitamin C" := "mg",
    "Vitamin D (IU)" := "IU",
    "Vitamin E" := "mg",
    "Vitamin K" := "mcg",
    "Thiamin" := "mg",
    "Riboflavin" := "mg",
    "Niacin" := "mg",
    "Vitamin B6" := "mg",
    "Folate" := "mcg DFE",
    "Vitamin B12" := "mcg",
    "Pantothenic Acid" := "mg",
    "Biotin" := "mcg",
    "Choline" := "mg",
    "Protein" := "g",
    "Dietary Fiber" := "g"
  ]
}
