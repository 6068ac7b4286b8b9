# Enteral-formula dosing calculator: the calculation engine

This project models the calculation engine of a chatbot that helps size an
enteral-nutrition regimen. The user picks a formula product, a dosing method
(calories, volume or cartons per day), a dose, an age/sex bracket and
optionally a weight. The engine then computes:

- the daily volume, quantized to 25 mL;
- the cartons per day, the daily calories and the daily protein, each to one decimal;
- calories and protein per kilogram;
- a comparison table with one row per displayed nutrient, showing the day's
  amount, the bracket's Dietary Reference Intake (DRI) and the percentage met.

The engine has three parts, each modelled as pure functions over exact reals:

- **Unit converter** (`convertToBaseUnit`, module `Converter`). It aligns a
  per-100 mL amount to the display unit of the nutrient's row in the display
  order. First it checks whether the unit starts with the display unit's
  leading token. Then it applies a fixed table of ×1000 / ÷1000 (mg and mcg,
  for eight trace nutrients) and ×40 / ÷40 (Vitamin D, mcg and IU) rules.
- **Nutrient locator** (`findNutrientInProduct`, module `Locator`). It finds
  a nutrient's record by its trimmed, lower-cased name, or else by an alias.
  It reads the record's per-100 mL value and converts it.
- **Calculator** (`calculateResults`, modules `Dose`, `DriCompare` and
  `Calculator`):
  - reads the per-carton baseline positionally from the energy record;
  - quantizes the daily volume;
  - derives the rounded figures;
  - builds the DRI rows, with tiered rounding and the "—" and "N/A" cells.

The JavaScript primitives the engine relies on are modelled as follows
(modules `JsText`, `JsNumber`):

- `Math.round` rounds half toward +∞.
- `toFixed` and `toExponential(1)`, each read back through `parseFloat`, round
  the magnitude half up and keep the sign.
- `parseFloat` is modelled concretely: white space, sign, digits and fraction.
- `toLowerCase`, `trim`, `split(" ")[0]`, `startsWith` and `includes` are
  modelled over strings.

The two constant tables of `src/services/driData.ts` are transcribed in full
(module `DriTables`):

- the 38-row display order (`NutrientOrder`);
- all 20 age/sex brackets of the DRI table (`DriData`);
- the 20 age/sex options offered to the user (`AgeSexOptions`).

The product catalog is not part of this model. It is a parameter: a sequence
of products, each with its nutrition records. A record is kept as the ordered
key/value list `Object.entries` returns, so that "the fourth entry" is index 3.

Modules `OrderScan`, `OrderFacts`, `BracketFacts`, `TableFacts` and
`ShippedUnits` prove what the shipped tables imply for the engine: which
conversion and percentage branches can fire, and what each row shows.
`OrderScan` and the per-bracket lemmas of `BracketFacts` read the tables one
row or one bracket at a time. The lemmas without a row below exist only for
that.

Some consequences of the code as written:

- **Quantization rounds half up.** `Math.round` rounds half toward +∞, so a
  raw volume halfway between two 25 mL steps goes up (`QuantizeTiesUp`).
- **The Vitamin A IU → "mcg RAE" rule is dead code** for every display table.
  It compares the display unit's first token, which never contains a space,
  with the two-word "mcg rae" (`VitaminANeverScaled`). With the shipped table,
  Vitamin A is compared in IU (`VitaminAOnShippedOrder`).
- **Manganese listed in mg or mcg never gets a percentage.** With the shipped
  tables, Manganese is displayed in mg while every bracket gives its DRI in
  mcg. A product listing Manganese in mg or mcg is located in mg and so always
  shows "N/A" in the %DRI column (`ManganeseRowNotApplicable`, end to end from
  the product record to the table row). A unit that is
  neither, such as "mcg total", passes through the converter unchanged; its
  leading token "mcg" then agrees with the DRI unit and a percentage is shown.
  This is modelled as written.
- **The DRI table is an ordered list.** `driData[label]` is modelled as a
  first-match lookup in an ordered list of (label, bracket) pairs.

## Model

| member | source | states |
|---|---|---|
| `JsText.ToLower` | src/components/Chatbot.tsx:322 | lower-casing keeps the length, turns each upper-case letter into the same letter in lower case, and leaves every other character as it is |
| `JsText.TrimStart` | src/components/Chatbot.tsx:479 | the result is a suffix of the input, what was dropped is all white space, and the result does not start with white space |
| `JsText.TrimEnd` | src/components/Chatbot.tsx:497 | the result is a prefix of the input, what was dropped is all white space, and the result does not end with white space |
| `JsText.FirstToken` | src/components/Chatbot.tsx:326-327 | `split(" ")[0]` is a prefix with no space, followed in the input by a space unless it is the whole input |
| `JsText.UnitTokenNonEmpty` | src/components/Chatbot.tsx:326-327 | a unit that does not start with a space has a non-empty leading token |
| `JsNumber.Round` | src/components/Chatbot.tsx:641 | `Math.round` lands within half a unit of its argument, a half going up |
| `JsNumber.NearestStepUnique` | src/components/Chatbot.tsx:641 | for a step size 1/p, at most one value is a whole number of steps within half a step of x with a half going up, so every rounding contract stated this way determines its result |
| `JsNumber.NearestStepMonotone` | src/components/Chatbot.tsx:641-648 | rounding to a step never reverses the order of two numbers |
| `JsNumber.ScaledNearestStepMonotone` | src/components/Chatbot.tsx:703-704 | scaling by a non-negative factor and then rounding to a step keeps the order, as the protein total does with cartons × protein per carton |
| `JsNumber.ToFixed` | src/components/Chatbot.tsx:769-771 | `parseFloat(x.toFixed(d))` is the multiple of 10^-d nearest to a non-negative x, a half going up; a negative x rounds as its magnitude with the sign kept |
| `JsNumber.DecimalExponent` | src/components/Chatbot.tsx:767 | the exponent e of a positive x in scientific notation satisfies 10^e <= x < 10^(e+1) |
| `JsNumber.ToExponential1` | src/components/Chatbot.tsx:767 | `parseFloat(x.toExponential(1))` is 0 for 0; for a positive x it is the two-significant-digit number nearest to x (the mantissa to a tenth, a half going up), hence within a twentieth of x; a negative x rounds as its magnitude with the sign kept |
| `JsNumber.MantissaRounded` | src/components/Chatbot.tsx:767 | for x in [t, 10t), the result over t is the tenth nearest to x over t, a half going up, and it moves x by at most a twentieth of itself |
| `JsNumber.ParseUnsigned` | src/components/Chatbot.tsx:603 | a leading digit always gives a number, no digit and no point gives NaN, and the value is never negative |
| `JsNumber.ParseFloat` | src/components/Chatbot.tsx:602-603 | after leading white space, a digit gives a non-negative number, and anything but a digit, sign or point gives NaN |
| `JsNumber.ParseFloatOfLabel` | src/components/Chatbot.tsx:601-603 | a label such as "250 ml" parses to the number its leading digits spell |
| `ProductData.KeyIndex` | src/components/Chatbot.tsx:507-509 | the position found holds the key and no earlier entry does; none found means no entry has the key |
| `ProductData.Get` | src/components/Chatbot.tsx:507-509 | a property read is undefined exactly when no entry has the key, and otherwise returns a value stored under it |
| `Converter.ConvertTo` | src/components/Chatbot.tsx:316-471 | null exactly for an undefined unit; the identity with the display unit when the unit starts with the display token; otherwise only ×1, ×1000, ÷1000, ×40 or ÷40 |
| `Converter.ConvertToBaseUnit` | src/components/Chatbot.tsx:316-327 | the converter reads the display unit of the first display-order row listing the key: null exactly for an undefined unit, value and unit unchanged for an unlisted key or a unit equal to the row's display unit, and otherwise a value scaled by one of the fixed factors |
| `Converter.ConvertFollowsRules` | src/components/Chatbot.tsx:330-470 | the converter is the prefix check followed by the mg/mcg and Vitamin D rescaling table, so the identity branches at 446-449 and the second prefix check at 463-465 never change the outcome |
| `Converter.VitaminANeverScaled` | src/components/Chatbot.tsx:452-459 | Vitamin A keeps its value whatever the units, because the IU → "mcg RAE" rule compares one token with a two-word unit |
| `Converter.UnlistedKeyUnchanged` | src/components/Chatbot.tsx:323-332 | a nutrient with no display-order row keeps its value and unit |
| `Converter.MilligramRoundTrip` | src/components/Chatbot.tsx:336-438 | for each of the eight trace nutrients, mg → mcg multiplies by 1000 and converting back restores the amount in mg |
| `Converter.MicrogramRoundTrip` | src/components/Chatbot.tsx:336-438 | for each of the eight trace nutrients, mcg → mg divides by 1000 and converting back restores the amount in mcg |
| `Converter.VitaminDRoundTrip` | src/components/Chatbot.tsx:440-445 | Vitamin D mcg → IU multiplies by 40 and IU → mcg divides by 40, restoring the amount |
| `Locator.RecordNames` | src/components/Chatbot.tsx:496-498 | each record's name is read as trimmed and lower-cased, position by position |
| `Locator.Aliases` | src/components/Chatbot.tsx:482-488 | the aliases of a normalized key never repeat the key, and each is already trimmed and lower-cased, so a record can carry it |
| `Locator.TotalCarbAliases` | src/components/Chatbot.tsx:483 | "total carb." has the aliases "carbohydrate" then "total carbohydrate" |
| `Locator.DietaryFiberAliases` | src/components/Chatbot.tsx:484 | "dietary fiber" has the one alias "fibre" |
| `Locator.VitaminAIuAliases` | src/components/Chatbot.tsx:485 | "vitamin a (iu)" has the one alias "vitamin a" |
| `Locator.VitaminDIuAliases` | src/components/Chatbot.tsx:486 | "vitamin d (iu)" has the one alias "vitamin d" |
| `Locator.NamesToTry` | src/components/Chatbot.tsx:479-493 | the names tried start with the nutrient's trimmed, lower-cased name, and the later ones are exactly that name's aliases in listed order, each different from it and normalized |
| `Locator.NameIndex` | src/components/Chatbot.tsx:496-498 | `find` returns the first record carrying the name, or none when no record does |
| `Locator.FirstMatch` | src/components/Chatbot.tsx:490-503 | the first name tried that some record carries wins, read from its first record; earlier names are carried by no record; none means no name is carried |
| `Locator.Per100ml` | src/components/Chatbot.tsx:506-508 | the per-100 mL value is the "100 ml" entry when that is truthy and the "100ml" entry otherwise, and a value found is stored under one of those keys |
| `Locator.FromRecord` | src/components/Chatbot.tsx:505-548 | a result exactly when `"100 ml" || "100ml"` is a number and the unit a string; its value is always the converter's value, so the null-conversion branch at 538-544 is dead; its unit is the full target unit when the leading tokens agree, and the converted unit otherwise |
| `Locator.Locate` | src/components/Chatbot.tsx:473-549 | a nutrient found was read from a record whose trimmed, lower-cased name is the nutrient's or one of its aliases; when no record carries any of those names nothing is found |
| `Locator.LocateReads` | src/components/Chatbot.tsx:495-545 | the locator reads exactly the record the name search picks |
| `Locator.FirstMatchAt` | src/components/Chatbot.tsx:495-503 | the first record carrying a name, with no earlier name carried by any record, is the match |
| `Locator.ExactNameWins` | src/components/Chatbot.tsx:479-503 | the first record named like the nutrient itself is read, whatever aliases other records carry |
| `Locator.AliasUsedWithoutExactName` | src/components/Chatbot.tsx:482-503 | without a record named like the nutrient, the first alias in listed order that some record carries is used, from its first record |
| `Locator.UnnamedNutrientMissing` | src/components/Chatbot.tsx:505-548 | when no record carries the name or an alias, nothing is found |
| `Locator.FibreReadForDietaryFiber` | src/components/Chatbot.tsx:482-503 | "Dietary Fiber" is read from the first record named "Fibre" when no record is named "Dietary Fiber" |
| `Locator.CarbohydrateReadForTotalCarb` | src/components/Chatbot.tsx:482-503 | "Total Carb." is read from the first record named "Carbohydrate" when none is named "Total Carb.", whatever records are named "Total Carbohydrate" |
| `Locator.TotalCarbohydrateReadForTotalCarb` | src/components/Chatbot.tsx:482-503 | "Total Carb." is read from the first record named "Total Carbohydrate" when none is named "Total Carb." or "Carbohydrate" |
| `Locator.VitaminAReadForVitaminAIu` | src/components/Chatbot.tsx:482-503 | "Vitamin A (IU)" is read from the first record named "Vitamin A" when none carries the full key |
| `Locator.VitaminDReadForVitaminDIu` | src/components/Chatbot.tsx:482-503 | "Vitamin D (IU)" is read from the first record named "Vitamin D" when none carries the full key |
| `Locator.FirstAliasRead` | src/components/Chatbot.tsx:482-503 | for any key, the first of its aliases is read from its first record when no record carries the key itself |
| `Locator.TotalCarbNames` | src/components/Chatbot.tsx:479-493 | "Total Carb." is tried as "total carb.", then "carbohydrate", then "total carbohydrate" |
| `Locator.ZeroValueIsMissing` | src/components/Chatbot.tsx:506-511 | a 0 under "100 ml" with no "100ml" entry counts as no value |
| `Dose.CartonBaseline` | src/components/Chatbot.tsx:566-625 | a baseline exactly when the first record is {Nutrition "Energy", Units "Cal"} with more than three entries, the fourth key parses to a positive volume and the fourth value parses to a number; the baseline is those two numbers |
| `Dose.DoseValue` | src/components/Chatbot.tsx:627 | an unset dose counts as 0 and a set one as itself |
| `Dose.RawVolumeMeaning` | src/components/Chatbot.tsx:629-639 | the raw volume holds the asked calories at the carton's calories per mL, is the asked volume itself, or holds the asked number of cartons; it is 0 for a carton without calories or an unset method |
| `Dose.MethodsAgree` | src/components/Chatbot.tsx:629-639 | n cartons, their volume and their calories ask for the same raw daily volume under the three methods |
| `Dose.RawVolumeNonNegative` | src/components/Chatbot.tsx:629-639 | a non-negative dose asks for a non-negative volume under every method, including an unset one |
| `Dose.RawVolumeMonotone` | src/components/Chatbot.tsx:629-639 | a larger dose never asks for less raw volume, under every method |
| `Dose.QuantizeVolume` | src/components/Chatbot.tsx:641 | the daily volume is a multiple of 25 mL within 12.5 mL of the raw volume |
| `Dose.QuantizeNearest` | src/components/Chatbot.tsx:641 | no multiple of 25 is closer to the raw volume than the quantized one |
| `Dose.QuantizeTiesUp` | src/components/Chatbot.tsx:641 | a raw volume halfway between two steps goes to the upper one |
| `Dose.QuantizeMonotone` | src/components/Chatbot.tsx:641 | more raw volume never quantizes to less |
| `Dose.Round1` | src/components/Chatbot.tsx:647-648 | `Math.round(x * 10) / 10` is the tenth nearest to x, a half going up |
| `Dose.Round1NonNegative` | src/components/Chatbot.tsx:647-648 | a non-negative number rounds to a non-negative tenth |
| `Dose.Round1Monotone` | src/components/Chatbot.tsx:647-648 | a larger number never rounds to a smaller tenth |
| `Dose.Cartons` | src/components/Chatbot.tsx:643-648 | the carton count is the tenth nearest to the quantized volume over the carton volume, and 0 without a positive carton volume |
| `Dose.Calories` | src/components/Chatbot.tsx:650-655 | the daily calories are the tenth nearest to the quantized volume times the calories per mL, and 0 without a positive carton volume |
| `Dose.CartonsCoverVolume` | src/components/Chatbot.tsx:643-648 | the rounded carton count times the carton volume is within a twentieth of a carton of the quantized volume |
| `Dose.CartonsCaloriesMonotone` | src/components/Chatbot.tsx:643-655 | more daily volume never gives fewer cartons or fewer calories |
| `Dose.ProteinIndex` | src/components/Chatbot.tsx:660-663 | the protein record is the first whose name is a string containing "Protein"; none means no record's name does |
| `Dose.ProteinPerCarton` | src/components/Chatbot.tsx:657-701 | the protein per carton is never negative, and it is 0 without a protein record; the lemmas below state each branch |
| `Dose.ProteinFromFourthEntry` | src/components/Chatbot.tsx:665-672 | a positive number in the protein record's fourth entry is the protein per carton |
| `Dose.ProteinFallback` | src/components/Chatbot.tsx:681-686 | when the fourth entry is missing, 0 or NaN, a non-negative "100 ml" figure is scaled to the carton |
| `Dose.ProteinNegativeEntry` | src/components/Chatbot.tsx:665-672 | a negative number in the fourth entry is replaced by 0 |
| `Dose.ProteinWithoutFallback` | src/components/Chatbot.tsx:681-699 | when the fourth entry is missing, 0 or NaN and there is no carton volume or no numeric `"100 ml" \|\| "100 ml*"` value, the protein per carton is 0 |
| `Dose.ProteinNegativeFallback` | src/components/Chatbot.tsx:681-699 | a negative "100 ml" fallback is replaced by 0 |
| `Dose.TotalProtein` | src/components/Chatbot.tsx:703-704 | the day's protein is the tenth nearest to cartons times protein per carton, and never negative for a non-negative carton count |
| `Dose.TotalProteinMonotone` | src/components/Chatbot.tsx:703-704 | more cartons never give less protein |
| `Dose.PerKg` | src/components/Chatbot.tsx:709-721 | a per-kilogram figure is present exactly for a positive weight, and is then the tenth nearest to the total over the weight |
| `Dose.WeightInKg` | src/components/Chatbot.tsx:289-293 | a weight in kg is kept; a weight in pounds is multiplied by exactly 0.453592, so a positive one becomes a smaller positive weight in kg |
| `Dose.PositiveWeightGivesPerKg` | src/components/Chatbot.tsx:712-716 | a positive weight in either unit enables the per-kilogram figures |
| `DriTables.BracketIndex` | src/components/Chatbot.tsx:726-727 | the bracket found is the first with the label; none found means no bracket has it |
| `DriTables.OrderIndex` | src/components/Chatbot.tsx:323-325 | the display-order row found is the first with the key; none found means no row has it |
| `DriCompare.DailyAmount` | src/components/Chatbot.tsx:756-761 | the day's amount is the per-100 mL value scaled to the daily volume (amount × 100 = value × volume), 0 without a positive volume, and never negative for a non-negative value |
| `DriCompare.FormatAmount` | src/components/Chatbot.tsx:766-772 | the shown amount is 0 for 0; below 0.001 the two-significant-digit number nearest to it; below 1 the nearest hundredth; below 10 the nearest tenth; otherwise the nearest whole number, each never negative for a non-negative amount; a negative amount rounds to two significant digits of its magnitude with the sign kept |
| `DriCompare.RowOf` | src/components/Chatbot.tsx:729-807 | the row's name, DRI cell and unit; amount "—" exactly when nothing is found or the volume is negative, and otherwise the tiered rounding of the day's amount of the found per-100 mL value; %DRI a rounded percentage exactly when the DRI is positive and the leading tokens agree, "N/A" exactly when they differ, "—" otherwise |
| `DriCompare.Rows` | src/components/Chatbot.tsx:729-808 | one row per display-order entry, in order |
| `DriCompare.FoundFor` | src/components/Chatbot.tsx:733-748 | each row's nutrient is looked up by the entry's key, never its display name, in the entry's display unit (`""` without one): a result comes from a record named like the key or one of its aliases, and with no such record there is none |
| `DriCompare.RowReadsNamedRecord` | src/components/Chatbot.tsx:744-803 | for any display order, a row reads the first record named like its key: the amount is the tiered rounding of the day's share of that record's converted per-100 mL number, and the unit is the display unit when the leading tokens agree and the converted unit otherwise |
| `DriCompare.RowWithoutRecord` | src/components/Chatbot.tsx:740-803 | a row whose key and aliases no record carries shows "—" for the amount and the percentage, in the display unit |
| `DriCompare.ZeroVolumeRow` | src/components/Chatbot.tsx:756-789 | with no daily volume, a located nutrient shows 0 and a %DRI of 0, "N/A" or "—" |
| `Calculator.FindProduct` | src/components/Chatbot.tsx:552-554 | the first catalog product with the selected name; none means no product has it |
| `Calculator.DriTable` | src/components/Chatbot.tsx:724-820 | the rows are present exactly for a non-empty bracket label the table knows and a non-empty display order, and are then the rows against that bracket |
| `Calculator.Calculate` | src/components/Chatbot.tsx:551-822 | an unknown product or an unreadable baseline gives the all-zero result; the volume is a multiple of 25; per-kg figures need a positive weight; no or an unknown bracket gives no DRI rows; the rows number the display-order entries |
| `Calculator.DosedTable` | src/components/Chatbot.tsx:724-821 | a result for a readable baseline carries the dosing figures unchanged, and its DRI table is present exactly for a known non-empty bracket and a non-empty order, evaluated at the quantized daily volume |
| `Calculator.FiguresVolume` | src/components/Chatbot.tsx:627-641 | the daily volume is a multiple of 25 mL within 12.5 mL of the volume the dose asks for |
| `Calculator.FiguresTenths` | src/components/Chatbot.tsx:643-655 | the cartons and the calories are the tenths nearest to what the quantized volume holds, not the raw one |
| `Calculator.FiguresProtein` | src/components/Chatbot.tsx:703-704 | the day's protein is the tenth nearest to the already-rounded carton count times the protein per carton |
| `Calculator.FiguresPerKg` | src/components/Chatbot.tsx:709-721 | per-kg figures are present exactly for a positive weight, as the tenths nearest to the rounded daily calories and protein over the weight |
| `Calculator.LargerDoseNeverLess` | src/components/Chatbot.tsx:627-707 | a larger dose never gives a smaller daily volume, carton count, calorie total or protein total |
| `Calculator.CalculateResults` | src/components/Chatbot.tsx:551-822 | with the shipped tables: an unknown product gives the all-zero result, and the DRI table has one row per display-order entry |
| `Calculator.NonNegativeDose` | src/components/Chatbot.tsx:627-707 | a non-negative dose never gives a negative volume, carton count or protein total |
| `Calculator.SampleBaseline` | src/components/Chatbot.tsx:566-603 | an energy record whose fourth entry is "250 ml": 250 gives a 250 mL, 250 Cal baseline |
| `Calculator.TwoCartonsScenario` | src/components/Chatbot.tsx:629-655 | two cartons a day of a 250 mL / 250 Cal carton give 500 mL, 2.0 cartons and 500.0 kcal |
| `Calculator.CaloriesScenario` | src/components/Chatbot.tsx:629-655 | 300 kcal a day of the same carton gives 300 mL, 1.2 cartons and 300.0 kcal |
| `OrderFacts.OrderKeysDistinct` | src/services/driData.ts:671-734 | the display order has 38 rows with distinct keys |
| `OrderFacts.OrderKeysCovered` | src/services/driData.ts:671-734 | every displayed nutrient is one of the 30 with a DRI or one of the 8 without |
| `OrderFacts.OrderKeysSplit` | src/services/driData.ts:671-734 | the displayed nutrients are exactly the 30 that every bracket defines plus Retinol, β-carotene, Taurine, L-carnitine, Folic Acid, Water, Total Carb. and Fat |
| `OrderFacts.DisplayUnitsMatchOrder` | src/services/driData.ts:671-734 | the table of display units covers exactly the 30 nutrients with a DRI, and each such row carries its unit from that table |
| `OrderFacts.OrderUnitsPresent` | src/services/driData.ts:671-734 | every row has a non-empty display unit that does not start with a space |
| `OrderFacts.OrderTokensNonEmpty` | src/services/driData.ts:671-734 | for every displayed nutrient the converter's display token is not empty, so the prefix check never passes vacuously |
| `BracketFacts.KeysAt` | src/services/driData.ts:6-667 | every bracket defines the same 30 nutrients |
| `BracketFacts.EntriesAt` | src/services/driData.ts:6-667 | in every bracket: a value present is positive; a value is missing only for fiber in the four infant brackets; units match the display units except Manganese, whose DRI is in mcg |
| `BracketFacts.AllBracketsWellFormed` | src/services/driData.ts:4-668 | both facts above, for all 20 brackets at once |
| `BracketFacts.LabelAt` | src/services/driData.ts:4-668 | the i-th bracket label is the i-th selectable age/sex option |
| `BracketFacts.LabelsAreOptions` | src/components/Chatbot.tsx:67-97 | the table's 20 labels are the 20 selectable options, in order and without repeats |
| `BracketFacts.OptionsNonEmpty` | src/components/Chatbot.tsx:67-97 | no selectable option is the empty label |
| `BracketFacts.OptionSelectsBracket` | src/services/driData.ts:4-668 | selecting the i-th option looks up the i-th bracket |
| `BracketFacts.OtherLabelHasNoBracket` | src/services/driData.ts:4-668 | a label that is not one of the options has no bracket |
| `BracketFacts.SelectedBracketWellFormed` | src/services/driData.ts:4-668 | a selected bracket exists, defines the 30 nutrients, and has good entries, infant exactly for the first four options |
| `TableFacts.DriCellShown` | src/services/driData.ts:6-667 | a row shows "—" as its DRI exactly for the eight nutrients without one and for fiber in the infant brackets; a DRI shown is positive |
| `TableFacts.DriUnitMatchesDisplay` | src/services/driData.ts:6-667 | the DRI unit is the display unit for every nutrient with a DRI except Manganese, whose DRI is in mcg |
| `TableFacts.PercentShown` | src/components/Chatbot.tsx:774-789 | a nutrient with a DRI, found in its display unit, gets a percentage except fiber for infants and Manganese |
| `TableFacts.ManganeseNotApplicable` | src/services/driData.ts:687 | Manganese found in mg always shows "N/A" for %DRI |
| `TableFacts.ManganeseRowNotApplicable` | src/components/Chatbot.tsx:744-795 | end to end on the shipped tables: when a product's first "Manganese" record gives a number in mg or mcg, the Manganese row of every bracket shows its amount in mg and "N/A" for the percentage |
| `TableFacts.OptionTable` | src/components/Chatbot.tsx:725-808 | a selectable option yields the 38 rows against its own bracket |
| `TableFacts.SelectedOptionTable` | src/components/Chatbot.tsx:551-822 | choosing any of the 20 options for a product with a readable baseline yields the full 38-row table against that bracket, and no table otherwise |
| `ShippedUnits.ListedDisplayUnit` | src/components/Chatbot.tsx:323-327 | the converter's display unit for a displayed nutrient is its own row's unit |
| `ShippedUnits.MassScaledDisplay` | src/services/driData.ts:671-734 | the eight rescaled nutrients are displayed in mcg, except Manganese, displayed in mg |
| `ShippedUnits.MassScaledOnShippedOrder` | src/components/Chatbot.tsx:336-438 | on the shipped order, each rescaled nutrient given in mg or mcg arrives in its display unit with the right factor |
| `ShippedUnits.CopperExample` | src/components/Chatbot.tsx:336-341 | 0.3 mg of Copper is shown as 300 mcg |
| `ShippedUnits.VitaminDOnShippedOrder` | src/services/driData.ts:700-705 | Vitamin D in mcg is multiplied by 40 into IU, IU passes through, and the IU → mcg division (lines 442-443 of the component) never happens |
| `ShippedUnits.VitaminAOnShippedOrder` | src/services/driData.ts:691-696 | Vitamin A is compared in IU: a unit starting with "iu" is reported as IU, any other passes through, and the value is never rescaled |
| `ShippedUnits.ManganeseLocatedInMg` | src/components/Chatbot.tsx:505-529 | a Manganese record in mg or mcg is located in mg, scaled from mcg by 1/1000 |

## Left out

- Rendering, widgets and the conversational step flow (the React component's JSX, hooks, message list and `handleReturn` truncation): these are presentation and state plumbing around the engine. The engine's inputs appear as the `UserInput` parameter.
- `displayResults`: it only formats the result for display.
- The Email and PDF buttons have no behaviour.
- `console.warn` and `console.error` diagnostics: they do not change any result.
- The product catalog is not part of this model and is a parameter. `src/App.tsx` and `src/types/index.ts` hold no engine logic; their shapes appear as datatypes.
- IEEE-754 behaviour: numbers are exact reals. NaN and ±Infinity do not arise, so the engine's `isNaN`/`isFinite` guards are modelled only where a parse can fail (`parseFloat` giving NaN is `None`).
- `Number(weight)` parsing in `handleWeightSubmit`: the weight reaches the model as a real.
- `Object.entries` puts integer-like keys first. The model keeps records in the given order.
- A JavaScript object's prototype keys (such as `"constructor"`) are not modelled: a lookup only sees the keys stored in the record or table.
- `Dose.DoseValue`: a NaN dose, which `|| 0` also maps to 0, does not exist over reals.
- `Dose.PerKg`: the `isFinite` guard is always met over reals; there is no non-finite result to discard.
- `Dose.TotalProtein`: "never NaN" holds trivially over reals and is not stated.
- `JsNumber.ParseFloat`: exponent notation ("1e3") and "Infinity" are not parsed; a string using them reads as the number before the "e", or as NaN.
- `JsText.ToLower`: case mapping covers ASCII letters only. It is applied to product units and to nutrient names, both the products' and the display order's. The only non-ASCII letter in the display order is the already lower-case β of "β-carotene", which both mappings keep; a name with a non-ASCII capital (a Greek "Β", say) would be lower-cased by JavaScript but kept by the model.
- `ProductData.NutritionName`: `Nutrition?.trim()` yields no name for an undefined or null "Nutrition", as the model does; only a non-null value that is not a string (a number) would make `.trim()` throw, and the model treats that record as one without a name instead.
- `DriCompare.FormatAmount`: for a negative amount, which needs a negative per-100 mL value in the product data, it states the two-significant-digit rounding of the magnitude but no closeness bound.
