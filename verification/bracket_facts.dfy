/** Facts about the shipped DRI table: every bracket defines the same 30
    nutrients, with positive values, a value missing only for infant fiber,
    and units that agree with the display order except for Manganese. */
module BracketFacts {
  import opened Wrappers
  import opened DriTables
  import opened OrderSets
  import opened OrderFacts

  /** What holds of every DRI entry: a value present is positive, a value
      is missing only for infant fiber, and the DRI unit is the display unit
      for every nutrient but Manganese, whose DRI is in mcg. */
  predicate GoodEntry(key: string, d: NutrientDri, infant: bool) {
    && (d.value.Some? ==> d.value.value > 0.0)
    && (d.value.None? <==> infant && key == "Dietary Fiber")
    && (key in DisplayUnits ==> (d.unit == DisplayUnits[key] <==> key != "Manganese"))
    && (key == "Manganese" ==> d.unit == "mcg")
  }

  lemma Months0To6MaleAt() ensures DriData[0] == ("0-6 months (Male)", Months0To6Male) {}
  lemma Months0To6MaleKeys() ensures Months0To6Male.Keys == BracketKeys {}
  lemma Months0To6MaleEntries() ensures forall k | k in Months0To6Male :: GoodEntry(k, Months0To6Male[k], true) {}

  lemma Months0To6FemaleAt() ensures DriData[1] == ("0-6 months (Female)", Months0To6Female) {}
  lemma Months0To6FemaleKeys() ensures Months0To6Female.Keys == BracketKeys {}
  lemma Months0To6FemaleEntries() ensures forall k | k in Months0To6Female :: GoodEntry(k, Months0To6Female[k], true) {}

  lemma Months7To12MaleAt() ensures DriData[2] == ("7-12 months (Male)", Months7To12Male) {}
  lemma Months7To12MaleKeys() ensures Months7To12Male.Keys == BracketKeys {}
  lemma Months7To12MaleEntries() ensures forall k | k in Months7To12Male :: GoodEntry(k, Months7To12Male[k], true) {}

  lemma Months7To12FemaleAt() ensures DriData[3] == ("7-12 months (Female)", Months7To12Female) {}
  lemma Months7To12FemaleKeys() ensures Months7To12Female.Keys == BracketKeys {}
  lemma Months7To12FemaleEntries() ensures forall k | k in Months7To12Female :: GoodEntry(k, Months7To12Female[k], true) {}

  lemma Years1To3MaleAt() ensures DriData[4] == ("1-3 years (Male)", Years1To3Male) {}
  lemma Years1To3MaleKeys() ensures Years1To3Male.Keys == BracketKeys {}
  lemma Years1To3MaleEntries() ensures forall k | k in Years1To3Male :: GoodEntry(k, Years1To3Male[k], false) {}

  lemma Years1To3FemaleAt() ensures DriData[5] == ("1-3 years (Female)", Years1To3Female) {}
  lemma Years1To3FemaleKeys() ensures Years1To3Female.Keys == BracketKeys {}
  lemma Years1To3FemaleEntries() ensures forall k | k in Years1To3Female :: GoodEntry(k, Years1To3Female[k], false) {}

  lemma Years4To8MaleAt() ensures DriData[6] == ("4-8 years (Male)", Years4To8Male) {}
  lemma Years4To8MaleKeys() ensures Years4To8Male.Keys == BracketKeys {}
  lemma Years4To8MaleEntries() ensures forall k | k in Years4To8Male :: GoodEntry(k, Years4To8Male[k], false) {}

  lemma Years4To8FemaleAt() ensures DriData[7] == ("4-8 years (Female)", Years4To8Female) {}
  lemma Years4To8FemaleKeys() ensures Years4To8Female.Keys == BracketKeys {}
  lemma Years4To8FemaleEntries() ensures forall k | k in Years4To8Female :: GoodEntry(k, Years4To8Female[k], false) {}

  lemma Years9To13MaleAt() ensures DriData[8] == ("9-13 years (Male)", Years9To13Male) {}
  lemma Years9To13MaleKeys() ensures Years9To13Male.Keys == BracketKeys {}
  lemma Years9To13MaleEntries() ensures forall k | k in Years9To13Male :: GoodEntry(k, Years9To13Male[k], false) {}

  lemma Years9To13FemaleAt() ensures DriData[9] == ("9-13 years (Female)", Years9To13Female) {}
  lemma Years9To13FemaleKeys() ensures Years9To13Female.Keys == BracketKeys {}
  lemma Years9To13FemaleEntries() ensures forall k | k in Years9To13Female :: GoodEntry(k, Years9To13Female[k], false) {}

  lemma Years14To18MaleAt() ensures DriData[10] == ("14-18 years (Male)", Years14To18Male) {}
  lemma Years14To18MaleKeys() ensures Years14To18Male.Keys == BracketKeys {}
  lemma Years14To18MaleEntries() ensures forall k | k in Years14To18Male :: GoodEntry(k, Years14To18Male[k], false) {}

  lemma Years14To18FemaleAt() ensures DriData[11] == ("14-18 years (Female)", Years14To18Female) {}
  lemma Years14To18FemaleKeys() ensures Years14To18Female.Keys == BracketKeys {}
  lemma Years14To18FemaleEntries() ensures forall k | k in Years14To18Female :: GoodEntry(k, Years14To18Female[k], false) {}

  lemma Years19To30MaleAt() ensures DriData[12] == ("19-30 years (Male)", Years19To30Male) {}
  lemma Years19To30MaleKeys() ensures Years19To30Male.Keys == BracketKeys {}
  lemma Years19To30MaleEntries() ensures forall k | k in Years19To30Male :: GoodEntry(k, Years19To30Male[k], false) {}

  lemma Years19To30FemaleAt() ensures DriData[13] == ("19-30 years (Female)", Years19To30Female) {}
  lemma Years19To30FemaleKeys() ensures Years19To30Female.Keys == BracketKeys {}
  lemma Years19To30FemaleEntries() ensures forall k | k in Years19To30Female :: GoodEntry(k, Years19To30Female[k], false) {}

  lemma Years31To50MaleAt() ensures DriData[14] == ("31-50 years (Male)", Years31To50Male) {}
  lemma Years31To50MaleKeys() ensures Years31To50Male.Keys == BracketKeys {}
  lemma Years31To50MaleEntries() ensures forall k | k in Years31To50Male :: GoodEntry(k, Years31To50Male[k], false) {}

  lemma Years31To50FemaleAt() ensures DriData[15] == ("31-50 years (Female)", Years31To50Female) {}
  lemma Years31To50FemaleKeys() ensures Years31To50Female.Keys == BracketKeys {}
  lemma Years31To50FemaleEntries() ensures forall k | k in Years31To50Female :: GoodEntry(k, Years31To50Female[k], false) {}

  lemma Years51To70MaleAt() ensures DriData[16] == ("51-70 years (Male)", Years51To70Male) {}
  lemma Years51To70MaleKeys() ensures Years51To70Male.Keys == BracketKeys {}
  lemma Years51To70MaleEntries() ensures forall k | k in Years51To70Male :: GoodEntry(k, Years51To70Male[k], false) {}

  lemma Years51To70FemaleAt() ensures DriData[17] == ("51-70 years (Female)", Years51To70Female) {}
  lemma Years51To70FemaleKeys() ensures Years51To70Female.Keys == BracketKeys {}
  lemma Years51To70FemaleEntries() ensures forall k | k in Years51To70Female :: GoodEntry(k, Years51To70Female[k], false) {}

  lemma Years70PlusMaleAt() ensures DriData[18] == ("70+ years (Male)", Years70PlusMale) {}
  lemma Years70PlusMaleKeys() ensures Years70PlusMale.Keys == BracketKeys {}
  lemma Years70PlusMaleEntries() ensures forall k | k in Years70PlusMale :: GoodEntry(k, Years70PlusMale[k], false) {}

  lemma Years70PlusFemaleAt() ensures DriData[19] == ("70+ years (Female)", Years70PlusFemale) {}
  lemma Years70PlusFemaleKeys() ensures Years70PlusFemale.Keys == BracketKeys {}
  lemma Years70PlusFemaleEntries() ensures forall k | k in Years70PlusFemale :: GoodEntry(k, Years70PlusFemale[k], false) {}

  lemma Months0To6MaleOption() ensures AgeSexOptions()[0] == "0-6 months (Male)" {}

  lemma Months0To6MaleKeysAt() ensures DriData[0].1.Keys == BracketKeys {
    Months0To6MaleAt();
    Months0To6MaleKeys();
  }

  lemma Months0To6MaleEntriesAt() ensures forall k | k in DriData[0].1 :: GoodEntry(k, DriData[0].1[k], true) {
    Months0To6MaleAt();
    Months0To6MaleEntries();
  }

  lemma Months0To6MaleLabelAt() ensures DriData[0].0 == AgeSexOptions()[0] {
    Months0To6MaleAt();
    Months0To6MaleOption();
  }

  lemma Months0To6FemaleOption() ensures AgeSexOptions()[1] == "0-6 months (Female)" {}

  lemma Months0To6FemaleKeysAt() ensures DriData[1].1.Keys == BracketKeys {
    Months0To6FemaleAt();
    Months0To6FemaleKeys();
  }

  lemma Months0To6FemaleEntriesAt() ensures forall k | k in DriData[1].1 :: GoodEntry(k, DriData[1].1[k], true) {
    Months0To6FemaleAt();
    Months0To6FemaleEntries();
  }

  lemma Months0To6FemaleLabelAt() ensures DriData[1].0 == AgeSexOptions()[1] {
    Months0To6FemaleAt();
    Months0To6FemaleOption();
  }

  lemma Months7To12MaleOption() ensures AgeSexOptions()[2] == "7-12 months (Male)" {}

  lemma Months7To12MaleKeysAt() ensures DriData[2].1.Keys == BracketKeys {
    Months7To12MaleAt();
    Months7To12MaleKeys();
  }

  lemma Months7To12MaleEntriesAt() ensures forall k | k in DriData[2].1 :: GoodEntry(k, DriData[2].1[k], true) {
    Months7To12MaleAt();
    Months7To12MaleEntries();
  }

  lemma Months7To12MaleLabelAt() ensures DriData[2].0 == AgeSexOptions()[2] {
    Months7To12MaleAt();
    Months7To12MaleOption();
  }

  lemma Months7To12FemaleOption() ensures AgeSexOptions()[3] == "7-12 months (Female)" {}

  lemma Months7To12FemaleKeysAt() ensures DriData[3].1.Keys == BracketKeys {
    Months7To12FemaleAt();
    Months7To12FemaleKeys();
  }

  lemma Months7To12FemaleEntriesAt() ensures forall k | k in DriData[3].1 :: GoodEntry(k, DriData[3].1[k], true) {
    Months7To12FemaleAt();
    Months7To12FemaleEntries();
  }

  lemma Months7To12FemaleLabelAt() ensures DriData[3].0 == AgeSexOptions()[3] {
    Months7To12FemaleAt();
    Months7To12FemaleOption();
  }

  lemma Years1To3MaleOption() ensures AgeSexOptions()[4] == "1-3 years (Male)" {}

  lemma Years1To3MaleKeysAt() ensures DriData[4].1.Keys == BracketKeys {
    Years1To3MaleAt();
    Years1To3MaleKeys();
  }

  lemma Years1To3MaleEntriesAt() ensures forall k | k in DriData[4].1 :: GoodEntry(k, DriData[4].1[k], false) {
    Years1To3MaleAt();
    Years1To3MaleEntries();
  }

  lemma Years1To3MaleLabelAt() ensures DriData[4].0 == AgeSexOptions()[4] {
    Years1To3MaleAt();
    Years1To3MaleOption();
  }

  lemma Years1To3FemaleOption() ensures AgeSexOptions()[5] == "1-3 years (Female)" {}

  lemma Years1To3FemaleKeysAt() ensures DriData[5].1.Keys == BracketKeys {
    Years1To3FemaleAt();
    Years1To3FemaleKeys();
  }

  lemma Years1To3FemaleEntriesAt() ensures forall k | k in DriData[5].1 :: GoodEntry(k, DriData[5].1[k], false) {
    Years1To3FemaleAt();
    Years1To3FemaleEntries();
  }

  lemma Years1To3FemaleLabelAt() ensures DriData[5].0 == AgeSexOptions()[5] {
    Years1To3FemaleAt();
    Years1To3FemaleOption();
  }

  lemma Years4To8MaleOption() ensures AgeSexOptions()[6] == "4-8 years (Male)" {}

  lemma Years4To8MaleKeysAt() ensures DriData[6].1.Keys == BracketKeys {
    Years4To8MaleAt();
    Years4To8MaleKeys();
  }

  lemma Years4To8MaleEntriesAt() ensures forall k | k in DriData[6].1 :: GoodEntry(k, DriData[6].1[k], false) {
    Years4To8MaleAt();
    Years4To8MaleEntries();
  }

  lemma Years4To8MaleLabelAt() ensures DriData[6].0 == AgeSexOptions()[6] {
    Years4To8MaleAt();
    Years4To8MaleOption();
  }

  lemma Years4To8FemaleOption() ensures AgeSexOptions()[7] == "4-8 years (Female)" {}

  lemma Years4To8FemaleKeysAt() ensures DriData[7].1.Keys == BracketKeys {
    Years4To8FemaleAt();
    Years4To8FemaleKeys();
  }

  lemma Years4To8FemaleEntriesAt() ensures forall k | k in DriData[7].1 :: GoodEntry(k, DriData[7].1[k], false) {
    Years4To8FemaleAt();
    Years4To8FemaleEntries();
  }

  lemma Years4To8FemaleLabelAt() ensures DriData[7].0 == AgeSexOptions()[7] {
    Years4To8FemaleAt();
    Years4To8FemaleOption();
  }

  lemma Years9To13MaleOption() ensures AgeSexOptions()[8] == "9-13 years (Male)" {}

  lemma Years9To13MaleKeysAt() ensures DriData[8].1.Keys == BracketKeys {
    Years9To13MaleAt();
    Years9To13MaleKeys();
  }

  lemma Years9To13MaleEntriesAt() ensures forall k | k in DriData[8].1 :: GoodEntry(k, DriData[8].1[k], false) {
    Years9To13MaleAt();
    Years9To13MaleEntries();
  }

  lemma Years9To13MaleLabelAt() ensures DriData[8].0 == AgeSexOptions()[8] {
    Years9To13MaleAt();
    Years9To13MaleOption();
  }

  lemma Years9To13FemaleOption() ensures AgeSexOptions()[9] == "9-13 years (Female)" {}

  lemma Years9To13FemaleKeysAt() ensures DriData[9].1.Keys == BracketKeys {
    Years9To13FemaleAt();
    Years9To13FemaleKeys();
  }

  lemma Years9To13FemaleEntriesAt() ensures forall k | k in DriData[9].1 :: GoodEntry(k, DriData[9].1[k], false) {
    Years9To13FemaleAt();
    Years9To13FemaleEntries();
  }

  lemma Years9To13FemaleLabelAt() ensures DriData[9].0 == AgeSexOptions()[9] {
    Years9To13FemaleAt();
    Years9To13FemaleOption();
  }

  lemma Years14To18MaleOption() ensures AgeSexOptions()[10] == "14-18 years (Male)" {}

  lemma Years14To18MaleKeysAt() ensures DriData[10].1.Keys == BracketKeys {
    Years14To18MaleAt();
    Years14To18MaleKeys();
  }

  lemma Years14To18MaleEntriesAt() ensures forall k | k in DriData[10].1 :: GoodEntry(k, DriData[10].1[k], false) {
    Years14To18MaleAt();
    Years14To18MaleEntries();
  }

  lemma Years14To18MaleLabelAt() ensures DriData[10].0 == AgeSexOptions()[10] {
    Years14To18MaleAt();
    Years14To18MaleOption();
  }

  lemma Years14To18FemaleOption() ensures AgeSexOptions()[11] == "14-18 years (Female)" {}

  lemma Years14To18FemaleKeysAt() ensures DriData[11].1.Keys == BracketKeys {
    Years14To18FemaleAt();
    Years14To18FemaleKeys();
  }

  lemma Years14To18FemaleEntriesAt() ensures forall k | k in DriData[11].1 :: GoodEntry(k, DriData[11].1[k], false) {
    Years14To18FemaleAt();
    Years14To18FemaleEntries();
  }

  lemma Years14To18FemaleLabelAt() ensures DriData[11].0 == AgeSexOptions()[11] {
    Years14To18FemaleAt();
    Years14To18FemaleOption();
  }

  lemma Years19To30MaleOption() ensures AgeSexOptions()[12] == "19-30 years (Male)" {}

  lemma Years19To30MaleKeysAt() ensures DriData[12].1.Keys == BracketKeys {
    Years19To30MaleAt();
    Years19To30MaleKeys();
  }

  lemma Years19To30MaleEntriesAt() ensures forall k | k in DriData[12].1 :: GoodEntry(k, DriData[12].1[k], false) {
    Years19To30MaleAt();
    Years19To30MaleEntries();
  }

  lemma Years19To30MaleLabelAt() ensures DriData[12].0 == AgeSexOptions()[12] {
    Years19To30MaleAt();
    Years19To30MaleOption();
  }

  lemma Years19To30FemaleOption() ensures AgeSexOptions()[13] == "19-30 years (Female)" {}

  lemma Years19To30FemaleKeysAt() ensures DriData[13].1.Keys == BracketKeys {
    Years19To30FemaleAt();
    Years19To30FemaleKeys();
  }

  lemma Years19To30FemaleEntriesAt() ensures forall k | k in DriData[13].1 :: GoodEntry(k, DriData[13].1[k], false) {
    Years19To30FemaleAt();
    Years19To30FemaleEntries();
  }

  lemma Years19To30FemaleLabelAt() ensures DriData[13].0 == AgeSexOptions()[13] {
    Years19To30FemaleAt();
    Years19To30FemaleOption();
  }

  lemma Years31To50MaleOption() ensures AgeSexOptions()[14] == "31-50 years (Male)" {}

  lemma Years31To50MaleKeysAt() ensures DriData[14].1.Keys == BracketKeys {
    Years31To50MaleAt();
    Years31To50MaleKeys();
  }

  lemma Years31To50MaleEntriesAt() ensures forall k | k in DriData[14].1 :: GoodEntry(k, DriData[14].1[k], false) {
    Years31To50MaleAt();
    Years31To50MaleEntries();
  }

  lemma Years31To50MaleLabelAt() ensures DriData[14].0 == AgeSexOptions()[14] {
    Years31To50MaleAt();
    Years31To50MaleOption();
  }

  lemma Years31To50FemaleOption() ensures AgeSexOptions()[15] == "31-50 years (Female)" {}

  lemma Years31To50FemaleKeysAt() ensures DriData[15].1.Keys == BracketKeys {
    Years31To50FemaleAt();
    Years31To50FemaleKeys();
  }

  lemma Years31To50FemaleEntriesAt() ensures forall k | k in DriData[15].1 :: GoodEntry(k, DriData[15].1[k], false) {
    Years31To50FemaleAt();
    Years31To50FemaleEntries();
  }

  lemma Years31To50FemaleLabelAt() ensures DriData[15].0 == AgeSexOptions()[15] {
    Years31To50FemaleAt();
    Years31To50FemaleOption();
  }

  lemma Years51To70MaleOption() ensures AgeSexOptions()[16] == "51-70 years (Male)" {}

  lemma Years51To70MaleKeysAt() ensures DriData[16].1.Keys == BracketKeys {
    Years51To70MaleAt();
    Years51To70MaleKeys();
  }

  lemma Years51To70MaleEntriesAt() ensures forall k | k in DriData[16].1 :: GoodEntry(k, DriData[16].1[k], false) {
    Years51To70MaleAt();
    Years51To70MaleEntries();
  }

  lemma Years51To70MaleLabelAt() ensures DriData[16].0 == AgeSexOptions()[16] {
    Years51To70MaleAt();
    Years51To70MaleOption();
  }

  lemma Years51To70FemaleOption() ensures AgeSexOptions()[17] == "51-70 years (Female)" {}

  lemma Years51To70FemaleKeysAt() ensures DriData[17].1.Keys == BracketKeys {
    Years51To70FemaleAt();
    Years51To70FemaleKeys();
  }

  lemma Years51To70FemaleEntriesAt() ensures forall k | k in DriData[17].1 :: GoodEntry(k, DriData[17].1[k], false) {
    Years51To70FemaleAt();
    Years51To70FemaleEntries();
  }

  lemma Years51To70FemaleLabelAt() ensures DriData[17].0 == AgeSexOptions()[17] {
    Years51To70FemaleAt();
    Years51To70FemaleOption();
  }

  lemma Years70PlusMaleOption() ensures AgeSexOptions()[18] == "70+ years (Male)" {}

  lemma Years70PlusMaleKeysAt() ensures DriData[18].1.Keys == BracketKeys {
    Years70PlusMaleAt();
    Years70PlusMaleKeys();
  }

  lemma Years70PlusMaleEntriesAt() ensures forall k | k in DriData[18].1 :: GoodEntry(k, DriData[18].1[k], false) {
    Years70PlusMaleAt();
    Years70PlusMaleEntries();
  }

  lemma Years70PlusMaleLabelAt() ensures DriData[18].0 == AgeSexOptions()[18] {
    Years70PlusMaleAt();
    Years70PlusMaleOption();
  }

  lemma Years70PlusFemaleOption() ensures AgeSexOptions()[19] == "70+ years (Female)" {}

  lemma Years70PlusFemaleKeysAt() ensures DriData[19].1.Keys == BracketKeys {
    Years70PlusFemaleAt();
    Years70PlusFemaleKeys();
  }

  lemma Years70PlusFemaleEntriesAt() ensures forall k | k in DriData[19].1 :: GoodEntry(k, DriData[19].1[k], false) {
    Years70PlusFemaleAt();
    Years70PlusFemaleEntries();
  }

  lemma Years70PlusFemaleLabelAt() ensures DriData[19].0 == AgeSexOptions()[19] {
    Years70PlusFemaleAt();
    Years70PlusFemaleOption();
  }

  lemma KeysAt(i: nat)
    requires i < |DriData|
    ensures DriData[i].1.Keys == BracketKeys
  {
    if i == 0 {
      Months0To6MaleKeysAt();
    } else if i == 1 {
      Months0To6FemaleKeysAt();
    } else if i == 2 {
      Months7To12MaleKeysAt();
    } else if i == 3 {
      Months7To12FemaleKeysAt();
    } else if i == 4 {
      Years1To3MaleKeysAt();
    } else if i == 5 {
      Years1To3FemaleKeysAt();
    } else if i == 6 {
      Years4To8MaleKeysAt();
    } else if i == 7 {
      Years4To8FemaleKeysAt();
    } else if i == 8 {
      Years9To13MaleKeysAt();
    } else if i == 9 {
      Years9To13FemaleKeysAt();
    } else if i == 10 {
      Years14To18MaleKeysAt();
    } else if i == 11 {
      Years14To18FemaleKeysAt();
    } else if i == 12 {
      Years19To30MaleKeysAt();
    } else if i == 13 {
      Years19To30FemaleKeysAt();
    } else if i == 14 {
      Years31To50MaleKeysAt();
    } else if i == 15 {
      Years31To50FemaleKeysAt();
    } else if i == 16 {
      Years51To70MaleKeysAt();
    } else if i == 17 {
      Years51To70FemaleKeysAt();
    } else if i == 18 {
      Years70PlusMaleKeysAt();
    } else {
      Years70PlusFemaleKeysAt();
    }
  }

  lemma EntriesAt(i: nat)
    requires i < |DriData|
    ensures forall k | k in DriData[i].1 :: GoodEntry(k, DriData[i].1[k], i < 4)
  {
    if i == 0 {
      Months0To6MaleEntriesAt();
    } else if i == 1 {
      Months0To6FemaleEntriesAt();
    } else if i == 2 {
      Months7To12MaleEntriesAt();
    } else if i == 3 {
      Months7To12FemaleEntriesAt();
    } else if i == 4 {
      Years1To3MaleEntriesAt();
    } else if i == 5 {
      Years1To3FemaleEntriesAt();
    } else if i == 6 {
      Years4To8MaleEntriesAt();
    } else if i == 7 {
      Years4To8FemaleEntriesAt();
    } else if i == 8 {
      Years9To13MaleEntriesAt();
    } else if i == 9 {
      Years9To13FemaleEntriesAt();
    } else if i == 10 {
      Years14To18MaleEntriesAt();
    } else if i == 11 {
      Years14To18FemaleEntriesAt();
    } else if i == 12 {
      Years19To30MaleEntriesAt();
    } else if i == 13 {
      Years19To30FemaleEntriesAt();
    } else if i == 14 {
      Years31To50MaleEntriesAt();
    } else if i == 15 {
      Years31To50FemaleEntriesAt();
    } else if i == 16 {
      Years51To70MaleEntriesAt();
    } else if i == 17 {
      Years51To70FemaleEntriesAt();
    } else if i == 18 {
      Years70PlusMaleEntriesAt();
    } else {
      Years70PlusFemaleEntriesAt();
    }
  }

  /** Every bracket's nutrients and entries, as one statement over the table. */
  lemma AllBracketsWellFormed()
    ensures forall i | 0 <= i < |DriData| :: DriData[i].1.Keys == BracketKeys
    ensures forall i, k | 0 <= i < |DriData| && k in DriData[i].1 :: GoodEntry(k, DriData[i].1[k], i < 4)
  {
    forall i | 0 <= i < |DriData|
      ensures DriData[i].1.Keys == BracketKeys
    {
      KeysAt(i);
    }
    forall i, k | 0 <= i < |DriData| && k in DriData[i].1
      ensures GoodEntry(k, DriData[i].1[k], i < 4)
    {
      EntriesAt(i);
    }
  }

  lemma LabelAt(i: nat)
    requires i < |DriData|
    ensures |AgeSexOptions()| == |DriData|
    ensures DriData[i].0 == AgeSexOptions()[i]
  {
    if i == 0 {
      Months0To6MaleLabelAt();
    } else if i == 1 {
      Months0To6FemaleLabelAt();
    } else if i == 2 {
      Months7To12MaleLabelAt();
    } else if i == 3 {
      Months7To12FemaleLabelAt();
    } else if i == 4 {
      Years1To3MaleLabelAt();
    } else if i == 5 {
      Years1To3FemaleLabelAt();
    } else if i == 6 {
      Years4To8MaleLabelAt();
    } else if i == 7 {
      Years4To8FemaleLabelAt();
    } else if i == 8 {
      Years9To13MaleLabelAt();
    } else if i == 9 {
      Years9To13FemaleLabelAt();
    } else if i == 10 {
      Years14To18MaleLabelAt();
    } else if i == 11 {
      Years14To18FemaleLabelAt();
    } else if i == 12 {
      Years19To30MaleLabelAt();
    } else if i == 13 {
      Years19To30FemaleLabelAt();
    } else if i == 14 {
      Years31To50MaleLabelAt();
    } else if i == 15 {
      Years31To50FemaleLabelAt();
    } else if i == 16 {
      Years51To70MaleLabelAt();
    } else if i == 17 {
      Years51To70FemaleLabelAt();
    } else if i == 18 {
      Years70PlusMaleLabelAt();
    } else {
      Years70PlusFemaleLabelAt();
    }
  }

  lemma LabelDistinctFrom(i: nat)
    requires i < |AgeSexOptions()|
    ensures forall j | i < j < |AgeSexOptions()| :: AgeSexOptions()[i] != AgeSexOptions()[j]
  {
  }

  /** The table's labels are the 20 selectable age/sex options, in order and
      without repeats. */
  lemma LabelsAreOptions()
    ensures |DriData| == |AgeSexOptions()| == 20
    ensures forall i | 0 <= i < |DriData| :: DriData[i].0 == AgeSexOptions()[i]
    ensures forall i, j | 0 <= i < j < |AgeSexOptions()| :: AgeSexOptions()[i] != AgeSexOptions()[j]
  {
    forall i | 0 <= i < |DriData|
      ensures DriData[i].0 == AgeSexOptions()[i]
    {
      LabelAt(i);
    }
    forall i | 0 <= i < |AgeSexOptions()| {
      LabelDistinctFrom(i);
    }
  }

  lemma OptionsNonEmpty()
    ensures forall i | 0 <= i < |AgeSexOptions()| :: AgeSexOptions()[i] != ""
  {
  }

  /** Selecting the i-th age/sex option looks up the i-th bracket. */
  lemma OptionSelectsBracket(i: nat)
    requires i < |AgeSexOptions()|
    ensures BracketOf(DriData, AgeSexOptions()[i]) == Some(DriData[i].1)
  {
    LabelsAreOptions();
    assert DriData[i].0 == AgeSexOptions()[i];
  }

  /** A label that is not one of the options has no bracket. */
  lemma OtherLabelHasNoBracket(name: string)
    requires forall i | 0 <= i < |AgeSexOptions()| :: AgeSexOptions()[i] != name
    ensures BracketOf(DriData, name) == None
  {
    LabelsAreOptions();
  }

  /** What a selectable bracket looks like: the 30 nutrients, each entry good,
      and infant means one of the first four options. */
  lemma SelectedBracketWellFormed(i: nat)
    requires i < |AgeSexOptions()|
    ensures BracketOf(DriData, AgeSexOptions()[i]).Some?
    ensures BracketOf(DriData, AgeSexOptions()[i]).value.Keys == BracketKeys
    ensures forall k | k in BracketOf(DriData, AgeSexOptions()[i]).value ::
      GoodEntry(k, BracketOf(DriData, AgeSexOptions()[i]).value[k], i < 4)
  {
    OptionSelectsBracket(i);
    LabelsAreOptions();
    KeysAt(i);
    EntriesAt(i);
  }
}
