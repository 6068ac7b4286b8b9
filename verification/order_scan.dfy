/** Facts read off the shipped display order one row at a time: each row
    is first read off the literal, and each fact is then checked on the
    row's own key and unit, so that no proof has to search the whole list. */
module OrderScan {
  import opened Wrappers
  import opened DriTables
  import opened OrderSets

  /** The position of each displayed nutrient in the display order, and -1
      for any other key. Rows whose keys have distinct positions have
      distinct keys. */
  function KeyCode(key: string): int {
    if key == "Sodium" then 0
    else if key == "Potassium" then 1
    else if key == "Chloride" then 2
    else if key == "Calcium" then 3
    else if key == "Phosphorus" then 4
    else if key == "Magnesium" then 5
    else if key == "Copper" then 6
    else if key == "Selenium" then 7
    else if key == "Zinc" then 8
    else if key == "Chromium" then 9
    else if key == "Manganese" then 10
    else if key == "Molybdenum" then 11
    else if key == "Iodine" then 12
    else if key == "Iron" then 13
    else if key == "Vitamin A (IU)" then 14
    else if key == "Retinol" then 15
    else if key == "β-carotene" then 16
    else if key == "Vitamin C" then 17
    else if key == "Vitamin D (IU)" then 18
    else if key == "Vitamin E" then 19
    else if key == "Vitamin K" then 20
    else if key == "Thiamin" then 21
    else if key == "Taurine" then 22
    else if key == "L-carnitine" then 23
    else if key == "Riboflavin" then 24
    else if key == "Niacin" then 25
    else if key == "Vitamin B6" then 26
    else if key == "Folate" then 27
    else if key == "Folic Acid" then 28
    else if key == "Vitamin B12" then 29
    else if key == "Pantothenic Acid" then 30
    else if key == "Biotin" then 31
    else if key == "Choline" then 32
    else if key == "Water" then 33
    else if key == "Protein" then 34
    else if key == "Total Carb." then 35
    else if key == "Fat" then 36
    else if key == "Dietary Fiber" then 37
    else -1
  }

  /** What each row of the display order is checked against: its key sits
      at its own position and is one of the 38 known nutrients, its unit
      agrees with `DisplayUnits`, and it is present, non-empty and does not
      start with a space. */
  predicate RowChecked(i: nat, e: OrderEntry) {
    KeyCode(e.key) == i
    && e.key in BracketKeys + NoDriKeys
    && (e.key in DisplayUnits ==> e.defaultUnit == Some(DisplayUnits[e.key]))
    && e.defaultUnit.Some? && |e.defaultUnit.value| > 0 && e.defaultUnit.value[0] != ' '
  }

  /** A row's key is a key of the order. */
  lemma Listed(i: nat, key: string)
    requires i < |NutrientOrder()| && NutrientOrder()[i].key == key
    ensures key in OrderKeys(NutrientOrder())
  {
  }

  lemma Row0()
    ensures NutrientOrder()[0] == OrderEntry("Sodium", "Sodium (mg)", None, Some("mg"))
  {
  }

  lemma Code0()
    ensures KeyCode("Sodium") == 0
  {
  }

  lemma Known0()
    ensures "Sodium" in BracketKeys + NoDriKeys
  {
  }

  lemma Unit0()
    ensures "Sodium" in DisplayUnits ==> DisplayUnits["Sodium"] == "mg"
  {
  }

  lemma Checked0()
    ensures RowChecked(0, NutrientOrder()[0])
  {
    Row0();
    Code0();
    Known0();
    Unit0();
  }

  lemma Listed0()
    ensures "Sodium" in OrderKeys(NutrientOrder())
  {
    Row0();
    Listed(0, "Sodium");
  }

  lemma Row1()
    ensures NutrientOrder()[1] == OrderEntry("Potassium", "Potassium (mg)", None, Some("mg"))
  {
  }

  lemma Code1()
    ensures KeyCode("Potassium") == 1
  {
  }

  lemma Known1()
    ensures "Potassium" in BracketKeys + NoDriKeys
  {
  }

  lemma Unit1()
    ensures "Potassium" in DisplayUnits ==> DisplayUnits["Potassium"] == "mg"
  {
  }

  lemma Checked1()
    ensures RowChecked(1, NutrientOrder()[1])
  {
    Row1();
    Code1();
    Known1();
    Unit1();
  }

  lemma Listed1()
    ensures "Potassium" in OrderKeys(NutrientOrder())
  {
    Row1();
    Listed(1, "Potassium");
  }

  lemma Row2()
    ensures NutrientOrder()[2] == OrderEntry("Chloride", "Chloride (mg)", None, Some("mg"))
  {
  }

  lemma Code2()
    ensures KeyCode("Chloride") == 2
  {
  }

  lemma Known2()
    ensures "Chloride" in BracketKeys + NoDriKeys
  {
  }

  lemma Unit2()
    ensures "Chloride" in DisplayUnits ==> DisplayUnits["Chloride"] == "mg"
  {
  }

  lemma Checked2()
    ensures RowChecked(2, NutrientOrder()[2])
  {
    Row2();
    Code2();
    Known2();
    Unit2();
  }

  lemma Listed2()
    ensures "Chloride" in OrderKeys(NutrientOrder())
  {
    Row2();
    Listed(2, "Chloride");
  }

  lemma Row3()
    ensures NutrientOrder()[3] == OrderEntry("Calcium", "Calcium (mg)", None, Some("mg"))
  {
  }

  lemma Code3()
    ensures KeyCode("Calcium") == 3
  {
  }

  lemma Known3()
    ensures "Calcium" in BracketKeys + NoDriKeys
  {
  }

  lemma Unit3()
    ensures "Calcium" in DisplayUnits ==> DisplayUnits["Calcium"] == "mg"
  {
  }

  lemma Checked3()
    ensures RowChecked(3, NutrientOrder()[3])
  {
    Row3();
    Code3();
    Known3();
    Unit3();
  }

  lemma Listed3()
    ensures "Calcium" in OrderKeys(NutrientOrder())
  {
    Row3();
    Listed(3, "Calcium");
  }

  lemma Row4()
    ensures NutrientOrder()[4] == OrderEntry("Phosphorus", "Phosphorus (mg)", None, Some("mg"))
  {
  }

  lemma Code4()
    ensures KeyCode("Phosphorus") == 4
  {
  }

  lemma Known4()
    ensures "Phosphorus" in BracketKeys + NoDriKeys
  {
  }

  lemma Unit4()
    ensures "Phosphorus" in DisplayUnits ==> DisplayUnits["Phosphorus"] == "mg"
  {
  }

  lemma Checked4()
    ensures RowChecked(4, NutrientOrder()[4])
  {
    Row4();
    Code4();
    Known4();
    Unit4();
  }

  lemma Listed4()
    ensures "Phosphorus" in OrderKeys(NutrientOrder())
  {
    Row4();
    Listed(4, "Phosphorus");
  }

  lemma Row5()
    ensures NutrientOrder()[5] == OrderEntry("Magnesium", "Magnesium (mg)", None, Some("mg"))
  {
  }

  lemma Code5()
    ensures KeyCode("Magnesium") == 5
  {
  }

  lemma Known5()
    ensures "Magnesium" in BracketKeys + NoDriKeys
  {
  }

  lemma Unit5()
    ensures "Magnesium" in DisplayUnits ==> DisplayUnits["Magnesium"] == "mg"
  {
  }

  lemma Checked5()
    ensures RowChecked(5, NutrientOrder()[5])
  {
    Row5();
    Code5();
    Known5();
    Unit5();
  }

  lemma Listed5()
    ensures "Magnesium" in OrderKeys(NutrientOrder())
  {
    Row5();
    Listed(5, "Magnesium");
  }

  lemma Row6()
    ensures NutrientOrder()[6] == OrderEntry("Copper", "Copper (mcg)", None, Some("mcg"))
  {
  }

  lemma Code6()
    ensures KeyCode("Copper") == 6
  {
  }

  lemma Known6()
    ensures "Copper" in BracketKeys + NoDriKeys
  {
  }

  lemma Unit6()
    ensures "Copper" in DisplayUnits ==> DisplayUnits["Copper"] == "mcg"
  {
  }

  lemma Checked6()
    ensures RowChecked(6, NutrientOrder()[6])
  {
    Row6();
    Code6();
    Known6();
    Unit6();
  }

  lemma Listed6()
    ensures "Copper" in OrderKeys(NutrientOrder())
  {
    Row6();
    Listed(6, "Copper");
  }

  lemma Row7()
    ensures NutrientOrder()[7] == OrderEntry("Selenium", "Selenium (mcg)", None, Some("mcg"))
  {
  }

  lemma Code7()
    ensures KeyCode("Selenium") == 7
  {
  }

  lemma Known7()
    ensures "Selenium" in BracketKeys + NoDriKeys
  {
  }

  lemma Unit7()
    ensures "Selenium" in DisplayUnits ==> DisplayUnits["Selenium"] == "mcg"
  {
  }

  lemma Checked7()
    ensures RowChecked(7, NutrientOrder()[7])
  {
    Row7();
    Code7();
    Known7();
    Unit7();
  }

  lemma Listed7()
    ensures "Selenium" in OrderKeys(NutrientOrder())
  {
    Row7();
    Listed(7, "Selenium");
  }

  lemma Row8()
    ensures NutrientOrder()[8] == OrderEntry("Zinc", "Zinc (mg)", None, Some("mg"))
  {
  }

  lemma Code8()
    ensures KeyCode("Zinc") == 8
  {
  }

  lemma Known8()
    ensures "Zinc" in BracketKeys + NoDriKeys
  {
  }

  lemma Unit8()
    ensures "Zinc" in DisplayUnits ==> DisplayUnits["Zinc"] == "mg"
  {
  }

  lemma Checked8()
    ensures RowChecked(8, NutrientOrder()[8])
  {
    Row8();
    Code8();
    Known8();
    Unit8();
  }

  lemma Listed8()
    ensures "Zinc" in OrderKeys(NutrientOrder())
  {
    Row8();
    Listed(8, "Zinc");
  }

  lemma Row9()
    ensures NutrientOrder()[9] == OrderEntry("Chromium", "Chromium (mcg)", None, Some("mcg"))
  {
  }

  lemma Code9()
    ensures KeyCode("Chromium") == 9
  {
  }

  lemma Known9()
    ensures "Chromium" in BracketKeys + NoDriKeys
  {
  }

  lemma Unit9()
    ensures "Chromium" in DisplayUnits ==> DisplayUnits["Chromium"] == "mcg"
  {
  }

  lemma Checked9()
    ensures RowChecked(9, NutrientOrder()[9])
  {
    Row9();
    Code9();
    Known9();
    Unit9();
  }

  lemma Listed9()
    ensures "Chromium" in OrderKeys(NutrientOrder())
  {
    Row9();
    Listed(9, "Chromium");
  }

  lemma Row10()
    ensures NutrientOrder()[10] == OrderEntry("Manganese", "Manganese (mg)", None, Some("mg"))
  {
  }

  lemma Code10()
    ensures KeyCode("Manganese") == 10
  {
  }

  lemma Known10()
    ensures "Manganese" in BracketKeys + NoDriKeys
  {
  }

  lemma Unit10()
    ensures "Manganese" in DisplayUnits ==> DisplayUnits["Manganese"] == "mg"
  {
  }

  lemma Checked10()
    ensures RowChecked(10, NutrientOrder()[10])
  {
    Row10();
    Code10();
    Known10();
    Unit10();
  }

  lemma Listed10()
    ensures "Manganese" in OrderKeys(NutrientOrder())
  {
    Row10();
    Listed(10, "Manganese");
  }

  lemma Row11()
    ensures NutrientOrder()[11] == OrderEntry("Molybdenum", "Molybdenum (mcg)", None, Some("mcg"))
  {
  }

  lemma Code11()
    ensures KeyCode("Molybdenum") == 11
  {
  }

  lemma Known11()
    ensures "Molybdenum" in BracketKeys + NoDriKeys
  {
  }

  lemma Unit11()
    ensures "Molybdenum" in DisplayUnits ==> DisplayUnits["Molybdenum"] == "mcg"
  {
  }

  lemma Checked11()
    ensures RowChecked(11, NutrientOrder()[11])
  {
    Row11();
    Code11();
    Known11();
    Unit11();
  }

  lemma Listed11()
    ensures "Molybdenum" in OrderKeys(NutrientOrder())
  {
    Row11();
    Listed(11, "Molybdenum");
  }

  lemma Row12()
    ensures NutrientOrder()[12] == OrderEntry("Iodine", "Iodine (mcg)", None, Some("mcg"))
  {
  }

  lemma Code12()
    ensures KeyCode("Iodine") == 12
  {
  }

  lemma Known12()
    ensures "Iodine" in BracketKeys + NoDriKeys
  {
  }

  lemma Unit12()
    ensures "Iodine" in DisplayUnits ==> DisplayUnits["Iodine"] == "mcg"
  {
  }

  lemma Checked12()
    ensures RowChecked(12, NutrientOrder()[12])
  {
    Row12();
    Code12();
    Known12();
    Unit12();
  }

  lemma Listed12()
    ensures "Iodine" in OrderKeys(NutrientOrder())
  {
    Row12();
    Listed(12, "Iodine");
  }

  lemma Row13()
    ensures NutrientOrder()[13] == OrderEntry("Iron", "Iron (mg)", None, Some("mg"))
  {
  }

  lemma Code13()
    ensures KeyCode("Iron") == 13
  {
  }

  lemma Known13()
    ensures "Iron" in BracketKeys + NoDriKeys
  {
  }

  lemma Unit13()
    ensures "Iron" in DisplayUnits ==> DisplayUnits["Iron"] == "mg"
  {
  }

  lemma Checked13()
    ensures RowChecked(13, NutrientOrder()[13])
  {
    Row13();
    Code13();
    Known13();
    Unit13();
  }

  lemma Listed13()
    ensures "Iron" in OrderKeys(NutrientOrder())
  {
    Row13();
    Listed(13, "Iron");
  }

  lemma Row14()
    ensures NutrientOrder()[14] == OrderEntry("Vitamin A (IU)", "Vitamin A", Some(" (mcg RAE*)"), Some("IU"))
  {
  }

  lemma Code14()
    ensures KeyCode("Vitamin A (IU)") == 14
  {
  }

  lemma Known14()
    ensures "Vitamin A (IU)" in BracketKeys + NoDriKeys
  {
  }

  lemma Unit14()
    ensures "Vitamin A (IU)" in DisplayUnits ==> DisplayUnits["Vitamin A (IU)"] == "IU"
  {
  }

  lemma Checked14()
    ensures RowChecked(14, NutrientOrder()[14])
  {
    Row14();
    Code14();
    Known14();
    Unit14();
  }

  lemma Listed14()
    ensures "Vitamin A (IU)" in OrderKeys(NutrientOrder())
  {
    Row14();
    Listed(14, "Vitamin A (IU)");
  }

  lemma Row15()
    ensures NutrientOrder()[15] == OrderEntry("Retinol", "Retinol (mcg)", None, Some("mcg"))
  {
  }

  lemma Code15()
    ensures KeyCode("Retinol") == 15
  {
  }

  lemma Known15()
    ensures "Retinol" in BracketKeys + NoDriKeys
  {
  }

  lemma Unit15()
    ensures "Retinol" in DisplayUnits ==> DisplayUnits["Retinol"] == "mcg"
  {
  }

  lemma Checked15()
    ensures RowChecked(15, NutrientOrder()[15])
  {
    Row15();
    Code15();
    Known15();
    Unit15();
  }

  lemma Listed15()
    ensures "Retinol" in OrderKeys(NutrientOrder())
  {
    Row15();
    Listed(15, "Retinol");
  }

  lemma Row16()
    ensures NutrientOrder()[16] == OrderEntry("β-carotene", "β-carotene (mcg)", None, Some("mcg"))
  {
  }

  lemma Code16()
    ensures KeyCode("β-carotene") == 16
  {
  }

  lemma Known16()
    ensures "β-carotene" in BracketKeys + NoDriKeys
  {
  }

  lemma Unit16()
    ensures "β-carotene" in DisplayUnits ==> DisplayUnits["β-carotene"] == "mcg"
  {
  }

  lemma Checked16()
    ensures RowChecked(16, NutrientOrder()[16])
  {
    Row16();
    Code16();
    Known16();
    Unit16();
  }

  lemma Listed16()
    ensures "β-carotene" in OrderKeys(NutrientOrder())
  {
    Row16();
    Listed(16, "β-carotene");
  }

  lemma Row17()
    ensures NutrientOrder()[17] == OrderEntry("Vitamin C", "Vitamin C (mg)", None, Some("mg"))
  {
  }

  lemma Code17()
    ensures KeyCode("Vitamin C") == 17
  {
  }

  lemma Known17()
    ensures "Vitamin C" in BracketKeys + NoDriKeys
  {
  }

  lemma Unit17()
    ensures "Vitamin C" in DisplayUnits ==> DisplayUnits["Vitamin C"] == "mg"
  {
  }

  lemma Checked17()
    ensures RowChecked(17, NutrientOrder()[17])
  {
    Row17();
    Code17();
    Known17();
    Unit17();
  }

  lemma Listed17()
    ensures "Vitamin C" in OrderKeys(NutrientOrder())
  {
    Row17();
    Listed(17, "Vitamin C");
  }

  lemma Row18()
    ensures NutrientOrder()[18] == OrderEntry("Vitamin D (IU)", "Vitamin D (mcg)", Some(""), Some("IU"))
  {
  }

  lemma Code18()
    ensures KeyCode("Vitamin D (IU)") == 18
  {
  }

  lemma Known18()
    ensures "Vitamin D (IU)" in BracketKeys + NoDriKeys
  {
  }

  lemma Unit18()
    ensures "Vitamin D (IU)" in DisplayUnits ==> DisplayUnits["Vitamin D (IU)"] == "IU"
  {
  }

  lemma Checked18()
    ensures RowChecked(18, NutrientOrder()[18])
  {
    Row18();
    Code18();
    Known18();
    Unit18();
  }

  lemma Listed18()
    ensures "Vitamin D (IU)" in OrderKeys(NutrientOrder())
  {
    Row18();
    Listed(18, "Vitamin D (IU)");
  }

  lemma Row19()
    ensures NutrientOrder()[19] == OrderEntry("Vitamin E", "Vitamin E (mg)", None, Some("mg"))
  {
  }

  lemma Code19()
    ensures KeyCode("Vitamin E") == 19
  {
  }

  lemma Known19()
    ensures "Vitamin E" in BracketKeys + NoDriKeys
  {
  }

  lemma Unit19()
    ensures "Vitamin E" in DisplayUnits ==> DisplayUnits["Vitamin E"] == "mg"
  {
  }

  lemma Checked19()
    ensures RowChecked(19, NutrientOrder()[19])
  {
    Row19();
    Code19();
    Known19();
    Unit19();
  }

  lemma Listed19()
    ensures "Vitamin E" in OrderKeys(NutrientOrder())
  {
    Row19();
    Listed(19, "Vitamin E");
  }

  lemma Row20()
    ensures NutrientOrder()[20] == OrderEntry("Vitamin K", "Vitamin K (mcg)", None, Some("mcg"))
  {
  }

  lemma Code20()
    ensures KeyCode("Vitamin K") == 20
  {
  }

  lemma Known20()
    ensures "Vitamin K" in BracketKeys + NoDriKeys
  {
  }

  lemma Unit20()
    ensures "Vitamin K" in DisplayUnits ==> DisplayUnits["Vitamin K"] == "mcg"
  {
  }

  lemma Checked20()
    ensures RowChecked(20, NutrientOrder()[20])
  {
    Row20();
    Code20();
    Known20();
    Unit20();
  }

  lemma Listed20()
    ensures "Vitamin K" in OrderKeys(NutrientOrder())
  {
    Row20();
    Listed(20, "Vitamin K");
  }

  lemma Row21()
    ensures NutrientOrder()[21] == OrderEntry("Thiamin", "Thiamin (mg)", None, Some("mg"))
  {
  }

  lemma Code21()
    ensures KeyCode("Thiamin") == 21
  {
  }

  lemma Known21()
    ensures "Thiamin" in BracketKeys + NoDriKeys
  {
  }

  lemma Unit21()
    ensures "Thiamin" in DisplayUnits ==> DisplayUnits["Thiamin"] == "mg"
  {
  }

  lemma Checked21()
    ensures RowChecked(21, NutrientOrder()[21])
  {
    Row21();
    Code21();
    Known21();
    Unit21();
  }

  lemma Listed21()
    ensures "Thiamin" in OrderKeys(NutrientOrder())
  {
    Row21();
    Listed(21, "Thiamin");
  }

  lemma Row22()
    ensures NutrientOrder()[22] == OrderEntry("Taurine", "Taurine (mg)", None, Some("mg"))
  {
  }

  lemma Code22()
    ensures KeyCode("Taurine") == 22
  {
  }

  lemma Known22()
    ensures "Taurine" in BracketKeys + NoDriKeys
  {
  }

  lemma Unit22()
    ensures "Taurine" in DisplayUnits ==> DisplayUnits["Taurine"] == "mg"
  {
  }

  lemma Checked22()
    ensures RowChecked(22, NutrientOrder()[22])
  {
    Row22();
    Code22();
    Known22();
    Unit22();
  }

  lemma Listed22()
    ensures "Taurine" in OrderKeys(NutrientOrder())
  {
    Row22();
    Listed(22, "Taurine");
  }

  lemma Row23()
    ensures NutrientOrder()[23] == OrderEntry("L-carnitine", "L-carnitine (mg)", None, Some("mg"))
  {
  }

  lemma Code23()
    ensures KeyCode("L-carnitine") == 23
  {
  }

  lemma Known23()
    ensures "L-carnitine" in BracketKeys + NoDriKeys
  {
  }

  lemma Unit23()
    ensures "L-carnitine" in DisplayUnits ==> DisplayUnits["L-carnitine"] == "mg"
  {
  }

  lemma Checked23()
    ensures RowChecked(23, NutrientOrder()[23])
  {
    Row23();
    Code23();
    Known23();
    Unit23();
  }

  lemma Listed23()
    ensures "L-carnitine" in OrderKeys(NutrientOrder())
  {
    Row23();
    Listed(23, "L-carnitine");
  }

  lemma Row24()
    ensures NutrientOrder()[24] == OrderEntry("Riboflavin", "Riboflavin (mg)", None, Some("mg"))
  {
  }

  lemma Code24()
    ensures KeyCode("Riboflavin") == 24
  {
  }

  lemma Known24()
    ensures "Riboflavin" in BracketKeys + NoDriKeys
  {
  }

  lemma Unit24()
    ensures "Riboflavin" in DisplayUnits ==> DisplayUnits["Riboflavin"] == "mg"
  {
  }

  lemma Checked24()
    ensures RowChecked(24, NutrientOrder()[24])
  {
    Row24();
    Code24();
    Known24();
    Unit24();
  }

  lemma Listed24()
    ensures "Riboflavin" in OrderKeys(NutrientOrder())
  {
    Row24();
    Listed(24, "Riboflavin");
  }

  lemma Row25()
    ensures NutrientOrder()[25] == OrderEntry("Niacin", "Niacin (mg)", None, Some("mg"))
  {
  }

  lemma Code25()
    ensures KeyCode("Niacin") == 25
  {
  }

  lemma Known25()
    ensures "Niacin" in BracketKeys + NoDriKeys
  {
  }

  lemma Unit25()
    ensures "Niacin" in DisplayUnits ==> DisplayUnits["Niacin"] == "mg"
  {
  }

  lemma Checked25()
    ensures RowChecked(25, NutrientOrder()[25])
  {
    Row25();
    Code25();
    Known25();
    Unit25();
  }

  lemma Listed25()
    ensures "Niacin" in OrderKeys(NutrientOrder())
  {
    Row25();
    Listed(25, "Niacin");
  }

  lemma Row26()
    ensures NutrientOrder()[26] == OrderEntry("Vitamin B6", "Vitamin B6 (mg)", None, Some("mg"))
  {
  }

  lemma Code26()
    ensures KeyCode("Vitamin B6") == 26
  {
  }

  lemma Known26()
    ensures "Vitamin B6" in BracketKeys + NoDriKeys
  {
  }

  lemma Unit26()
    ensures "Vitamin B6" in DisplayUnits ==> DisplayUnits["Vitamin B6"] == "mg"
  {
  }

  lemma Checked26()
    ensures RowChecked(26, NutrientOrder()[26])
  {
    Row26();
    Code26();
    Known26();
    Unit26();
  }

  lemma Listed26()
    ensures "Vitamin B6" in OrderKeys(NutrientOrder())
  {
    Row26();
    Listed(26, "Vitamin B6");
  }

  lemma Row27()
    ensures NutrientOrder()[27] == OrderEntry("Folate", "Folate", Some(" (mcg DFE**)"), Some("mcg DFE"))
  {
  }

  lemma Code27()
    ensures KeyCode("Folate") == 27
  {
  }

  lemma Known27()
    ensures "Folate" in BracketKeys + NoDriKeys
  {
  }

  lemma Unit27()
    ensures "Folate" in DisplayUnits ==> DisplayUnits["Folate"] == "mcg DFE"
  {
  }

  lemma Checked27()
    ensures RowChecked(27, NutrientOrder()[27])
  {
    Row27();
    Code27();
    Known27();
    Unit27();
  }

  lemma Listed27()
    ensures "Folate" in OrderKeys(NutrientOrder())
  {
    Row27();
    Listed(27, "Folate");
  }

  lemma Row28()
    ensures NutrientOrder()[28] == OrderEntry("Folic Acid", "Folic Acid (mcg)", None, Some("mcg"))
  {
  }

  lemma Code28()
    ensures KeyCode("Folic Acid") == 28
  {
  }

  lemma Known28()
    ensures "Folic Acid" in BracketKeys + NoDriKeys
  {
  }

  lemma Unit28()
    ensures "Folic Acid" in DisplayUnits ==> DisplayUnits["Folic Acid"] == "mcg"
  {
  }

  lemma Checked28()
    ensures RowChecked(28, NutrientOrder()[28])
  {
    Row28();
    Code28();
    Known28();
    Unit28();
  }

  lemma Listed28()
    ensures "Folic Acid" in OrderKeys(NutrientOrder())
  {
    Row28();
    Listed(28, "Folic Acid");
  }

  lemma Row29()
    ensures NutrientOrder()[29] == OrderEntry("Vitamin B12", "Vitamin B12 (mcg)", None, Some("mcg"))
  {
  }

  lemma Code29()
    ensures KeyCode("Vitamin B12") == 29
  {
  }

  lemma Known29()
    ensures "Vitamin B12" in BracketKeys + NoDriKeys
  {
  }

  lemma Unit29()
    ensures "Vitamin B12" in DisplayUnits ==> DisplayUnits["Vitamin B12"] == "mcg"
  {
  }

  lemma Checked29()
    ensures RowChecked(29, NutrientOrder()[29])
  {
    Row29();
    Code29();
    Known29();
    Unit29();
  }

  lemma Listed29()
    ensures "Vitamin B12" in OrderKeys(NutrientOrder())
  {
    Row29();
    Listed(29, "Vitamin B12");
  }

  lemma Row30()
    ensures NutrientOrder()[30] == OrderEntry("Pantothenic Acid", "Pantothenic Acid (mg)", None, Some("mg"))
  {
  }

  lemma Code30()
    ensures KeyCode("Pantothenic Acid") == 30
  {
  }

  lemma Known30()
    ensures "Pantothenic Acid" in BracketKeys + NoDriKeys
  {
  }

  lemma Unit30()
    ensures "Pantothenic Acid" in DisplayUnits ==> DisplayUnits["Pantothenic Acid"] == "mg"
  {
  }

  lemma Checked30()
    ensures RowChecked(30, NutrientOrder()[30])
  {
    Row30();
    Code30();
    Known30();
    Unit30();
  }

  lemma Listed30()
    ensures "Pantothenic Acid" in OrderKeys(NutrientOrder())
  {
    Row30();
    Listed(30, "Pantothenic Acid");
  }

  lemma Row31()
    ensures NutrientOrder()[31] == OrderEntry("Biotin", "Biotin (mcg)", None, Some("mcg"))
  {
  }

  lemma Code31()
    ensures KeyCode("Biotin") == 31
  {
  }

  lemma Known31()
    ensures "Biotin" in BracketKeys + NoDriKeys
  {
  }

  lemma Unit31()
    ensures "Biotin" in DisplayUnits ==> DisplayUnits["Biotin"] == "mcg"
  {
  }

  lemma Checked31()
    ensures RowChecked(31, NutrientOrder()[31])
  {
    Row31();
    Code31();
    Known31();
    Unit31();
  }

  lemma Listed31()
    ensures "Biotin" in OrderKeys(NutrientOrder())
  {
    Row31();
    Listed(31, "Biotin");
  }

  lemma Row32()
    ensures NutrientOrder()[32] == OrderEntry("Choline", "Choline (mg)", None, Some("mg"))
  {
  }

  lemma Code32()
    ensures KeyCode("Choline") == 32
  {
  }

  lemma Known32()
    ensures "Choline" in BracketKeys + NoDriKeys
  {
  }

  lemma Unit32()
    ensures "Choline" in DisplayUnits ==> DisplayUnits["Choline"] == "mg"
  {
  }

  lemma Checked32()
    ensures RowChecked(32, NutrientOrder()[32])
  {
    Row32();
    Code32();
    Known32();
    Unit32();
  }

  lemma Listed32()
    ensures "Choline" in OrderKeys(NutrientOrder())
  {
    Row32();
    Listed(32, "Choline");
  }

  lemma Row33()
    ensures NutrientOrder()[33] == OrderEntry("Water", "Water (mL)", None, Some("mL"))
  {
  }

  lemma Code33()
    ensures KeyCode("Water") == 33
  {
  }

  lemma Known33()
    ensures "Water" in BracketKeys + NoDriKeys
  {
  }

  lemma Unit33()
    ensures "Water" in DisplayUnits ==> DisplayUnits["Water"] == "mL"
  {
  }

  lemma Checked33()
    ensures RowChecked(33, NutrientOrder()[33])
  {
    Row33();
    Code33();
    Known33();
    Unit33();
  }

  lemma Listed33()
    ensures "Water" in OrderKeys(NutrientOrder())
  {
    Row33();
    Listed(33, "Water");
  }

  lemma Row34()
    ensures NutrientOrder()[34] == OrderEntry("Protein", "Protein (g)", None, Some("g"))
  {
  }

  lemma Code34()
    ensures KeyCode("Protein") == 34
  {
  }

  lemma Known34()
    ensures "Protein" in BracketKeys + NoDriKeys
  {
  }

  lemma Unit34()
    ensures "Protein" in DisplayUnits ==> DisplayUnits["Protein"] == "g"
  {
  }

  lemma Checked34()
    ensures RowChecked(34, NutrientOrder()[34])
  {
    Row34();
    Code34();
    Known34();
    Unit34();
  }

  lemma Listed34()
    ensures "Protein" in OrderKeys(NutrientOrder())
  {
    Row34();
    Listed(34, "Protein");
  }

  lemma Row35()
    ensures NutrientOrder()[35] == OrderEntry("Total Carb.", "Total Carb. (g)", None, Some("g"))
  {
  }

  lemma Code35()
    ensures KeyCode("Total Carb.") == 35
  {
  }

  lemma Known35()
    ensures "Total Carb." in BracketKeys + NoDriKeys
  {
  }

  lemma Unit35()
    ensures "Total Carb." in DisplayUnits ==> DisplayUnits["Total Carb."] == "g"
  {
  }

  lemma Checked35()
    ensures RowChecked(35, NutrientOrder()[35])
  {
    Row35();
    Code35();
    Known35();
    Unit35();
  }

  lemma Listed35()
    ensures "Total Carb." in OrderKeys(NutrientOrder())
  {
    Row35();
    Listed(35, "Total Carb.");
  }

  lemma Row36()
    ensures NutrientOrder()[36] == OrderEntry("Fat", "Fat (g)", None, Some("g"))
  {
  }

  lemma Code36()
    ensures KeyCode("Fat") == 36
  {
  }

  lemma Known36()
    ensures "Fat" in BracketKeys + NoDriKeys
  {
  }

  lemma Unit36()
    ensures "Fat" in DisplayUnits ==> DisplayUnits["Fat"] == "g"
  {
  }

  lemma Checked36()
    ensures RowChecked(36, NutrientOrder()[36])
  {
    Row36();
    Code36();
    Known36();
    Unit36();
  }

  lemma Listed36()
    ensures "Fat" in OrderKeys(NutrientOrder())
  {
    Row36();
    Listed(36, "Fat");
  }

  lemma Row37()
    ensures NutrientOrder()[37] == OrderEntry("Dietary Fiber", "Dietary Fiber (g)", None, Some("g"))
  {
  }

  lemma Code37()
    ensures KeyCode("Dietary Fiber") == 37
  {
  }

  lemma Known37()
    ensures "Dietary Fiber" in BracketKeys + NoDriKeys
  {
  }

  lemma Unit37()
    ensures "Dietary Fiber" in DisplayUnits ==> DisplayUnits["Dietary Fiber"] == "g"
  {
  }

  lemma Checked37()
    ensures RowChecked(37, NutrientOrder()[37])
  {
    Row37();
    Code37();
    Known37();
    Unit37();
  }

  lemma Listed37()
    ensures "Dietary Fiber" in OrderKeys(NutrientOrder())
  {
    Row37();
    Listed(37, "Dietary Fiber");
  }

  /** Every row passes the check. */
  lemma RowCheckedAt(i: nat)
    requires i < |NutrientOrder()|
    ensures RowChecked(i, NutrientOrder()[i])
  {
    if i == 0 {
      Checked0();
    } else if i == 1 {
      Checked1();
    } else if i == 2 {
      Checked2();
    } else if i == 3 {
      Checked3();
    } else if i == 4 {
      Checked4();
    } else if i == 5 {
      Checked5();
    } else if i == 6 {
      Checked6();
    } else if i == 7 {
      Checked7();
    } else if i == 8 {
      Checked8();
    } else if i == 9 {
      Checked9();
    } else if i == 10 {
      Checked10();
    } else if i == 11 {
      Checked11();
    } else if i == 12 {
      Checked12();
    } else if i == 13 {
      Checked13();
    } else if i == 14 {
      Checked14();
    } else if i == 15 {
      Checked15();
    } else if i == 16 {
      Checked16();
    } else if i == 17 {
      Checked17();
    } else if i == 18 {
      Checked18();
    } else if i == 19 {
      Checked19();
    } else if i == 20 {
      Checked20();
    } else if i == 21 {
      Checked21();
    } else if i == 22 {
      Checked22();
    } else if i == 23 {
      Checked23();
    } else if i == 24 {
      Checked24();
    } else if i == 25 {
      Checked25();
    } else if i == 26 {
      Checked26();
    } else if i == 27 {
      Checked27();
    } else if i == 28 {
      Checked28();
    } else if i == 29 {
      Checked29();
    } else if i == 30 {
      Checked30();
    } else if i == 31 {
      Checked31();
    } else if i == 32 {
      Checked32();
    } else if i == 33 {
      Checked33();
    } else if i == 34 {
      Checked34();
    } else if i == 35 {
      Checked35();
    } else if i == 36 {
      Checked36();
    } else {
      Checked37();
    }
  }

  /** Each of the 38 nutrients is the key of some row. */
  lemma KeysListed()
    ensures BracketKeys + NoDriKeys <= OrderKeys(NutrientOrder())
  {
    Listed0();
    Listed1();
    Listed2();
    Listed3();
    Listed4();
    Listed5();
    Listed6();
    Listed7();
    Listed8();
    Listed9();
    Listed10();
    Listed11();
    Listed12();
    Listed13();
    Listed14();
    Listed15();
    Listed16();
    Listed17();
    Listed18();
    Listed19();
    Listed20();
    Listed21();
    Listed22();
    Listed23();
    Listed24();
    Listed25();
    Listed26();
    Listed27();
    Listed28();
    Listed29();
    Listed30();
    Listed31();
    Listed32();
    Listed33();
    Listed34();
    Listed35();
    Listed36();
    Listed37();
  }

  /** No nutrient both has a DRI and is listed without one. */
  lemma KeySetsDisjoint()
    ensures forall k | k in NoDriKeys :: k !in BracketKeys
  {
  }
}
