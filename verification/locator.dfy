/** The nutrient locator: finds a nutrient's record in a product's
    nutrition list by normalized name or alias, reads its per-100 mL value,
    and aligns it to the nutrient's display unit. */
module Locator {
  import opened Wrappers
  import opened JsText
  import opened ProductData
  import opened DriTables
  import opened Converter

  datatype Located = Located(valuePer100ml: real, unit: string)

  /** `s.trim().toLowerCase()`. */
  function NormalizeName(s: string): string {
    ToLower(Trim(s))
  }

  /** A name already trimmed and lower-cased; such a name is its own
      normal form (`NormalizedIsFixed`), so a record can carry it. */
  predicate IsNormalized(s: string) {
    && (forall i | 0 <= i < |s| :: !IsUpper(s[i]))
    && (|s| > 0 ==> !IsSpace(s[0]) && !IsSpace(s[|s| - 1]))
  }

  lemma AliasNamesNormalized()
    ensures IsNormalized("carbohydrate") && IsNormalized("total carbohydrate")
    ensures IsNormalized("fibre") && IsNormalized("vitamin a") && IsNormalized("vitamin d")
  {
  }

  lemma NormalizedIsFixed(s: string)
    requires IsNormalized(s)
    ensures NormalizeName(s) == s
  {
    assert TrimStart(s) == s;
    assert TrimEnd(s) == s;
    assert ToLower(s) == s;
  }

  /** The alternative record names tried, in order, after the nutrient's own. */
  function Aliases(normalizedKey: string): (r: seq<string>)
    ensures forall i | 0 <= i < |r| :: r[i] != normalizedKey
    ensures forall i | 0 <= i < |r| :: IsNormalized(r[i])
  {
    AliasNamesNormalized();
    if normalizedKey == "total carb." then ["carbohydrate", "total carbohydrate"]
    else if normalizedKey == "dietary fiber" then ["fibre"]
    else if normalizedKey == "vitamin a (iu)" then ["vitamin a"]
    else if normalizedKey == "vitamin d (iu)" then ["vitamin d"]
    else []
  }

  /** The nutrient's own normalized name first, then its aliases, each
      tried once. */
  function NamesToTry(key: string): (r: seq<string>)
    ensures |r| >= 1 && r[0] == NormalizeName(key)
    ensures forall k | 1 <= k < |r| :: r[k] != r[0]
    ensures forall k | 1 <= k < |r| :: IsNormalized(r[k])
    ensures r[1..] == Aliases(r[0])
  {
    [NormalizeName(key)] + Aliases(NormalizeName(key))
  }

  /** The names tried for the display-order keys that have aliases: the
      key trimmed and lower-cased, then its aliases in listed order. */
  lemma DietaryFiberAliases()
    ensures Aliases("dietary fiber") == ["fibre"]
  {
  }

  lemma DietaryFiberNormalized()
    ensures NormalizeName("Dietary Fiber") == "dietary fiber"
  {
    NormalizedSpelling("Dietary Fiber", "dietary fiber");
  }

  lemma TotalCarbAliases()
    ensures Aliases("total carb.") == ["carbohydrate", "total carbohydrate"]
  {
  }

  lemma TotalCarbNormalized()
    ensures NormalizeName("Total Carb.") == "total carb."
  {
    NormalizedSpelling("Total Carb.", "total carb.");
  }

  lemma VitaminAIuAliases()
    ensures Aliases("vitamin a (iu)") == ["vitamin a"]
  {
  }

  lemma VitaminAIuNormalized()
    ensures NormalizeName("Vitamin A (IU)") == "vitamin a (iu)"
  {
    NormalizedSpelling("Vitamin A (IU)", "vitamin a (iu)");
  }

  lemma VitaminDIuAliases()
    ensures Aliases("vitamin d (iu)") == ["vitamin d"]
  {
  }

  lemma VitaminDIuNormalized()
    ensures NormalizeName("Vitamin D (IU)") == "vitamin d (iu)"
  {
    NormalizedSpelling("Vitamin D (IU)", "vitamin d (iu)");
  }

  /** A name without surrounding white space normalizes to its
      lower-casing. */
  lemma NormalizedSpelling(s: string, lower: string)
    requires |s| > 0 && !IsSpace(s[0]) && !IsSpace(s[|s| - 1])
    requires ToLower(s) == lower
    ensures NormalizeName(s) == lower
  {
    assert TrimStart(s) == s;
    assert TrimEnd(s) == s;
  }

  /** The record's "Nutrition" name, trimmed and lower-cased; `None` when
      it is not a string. */
  function RecordName(record: NutritionRecord): Option<string> {
    match NutritionName(record)
    case Some(s) => Some(NormalizeName(s))
    case None => None
  }

  /** The normalized names of all records, in order. */
  function RecordNames(info: seq<NutritionRecord>): (r: seq<Option<string>>)
    ensures |r| == |info|
    ensures forall j | 0 <= j < |info| :: r[j] == RecordName(info[j])
  {
    seq(|info|, j requires 0 <= j < |info| => RecordName(info[j]))
  }

  /** The first name in `keys[from..]` that some record carries, with the
      position of the first record carrying it. */
  function FirstMatch(names: seq<Option<string>>, keys: seq<string>, from: nat := 0): (r: Option<(nat, nat)>)
    ensures r.Some? ==> from <= r.value.0 < |keys| && r.value.1 < |names|
    ensures r.Some? ==> names[r.value.1] == Some(keys[r.value.0])
    ensures r.Some? ==> forall j | 0 <= j < r.value.1 :: names[j] != Some(keys[r.value.0])
    ensures r.Some? ==> forall k, j | from <= k < r.value.0 && 0 <= j < |names| :: names[j] != Some(keys[k])
    ensures r.None? ==> forall k, j | from <= k < |keys| && 0 <= j < |names| :: names[j] != Some(keys[k])
    decreases |keys| - from
  {
    if from >= |keys| then None
    else match NameIndex(names, keys[from])
      case Some(i) => Some((from, i))
      case None => FirstMatch(names, keys, from + 1)
  }

  /** The position of the first record named `name`. */
  function NameIndex(names: seq<Option<string>>, name: string, from: nat := 0): (r: Option<nat>)
    ensures r.Some? ==> from <= r.value < |names| && names[r.value] == Some(name)
    ensures r.Some? ==> forall j | from <= j < r.value :: names[j] != Some(name)
    ensures r.None? ==> forall j | from <= j < |names| :: names[j] != Some(name)
    decreases |names| - from
  {
    if from >= |names| then None
    else if names[from] == Some(name) then Some(from)
    else NameIndex(names, name, from + 1)
  }

  /** The per-100 mL value, read under "100 ml" or else "100ml". */
  function Per100ml(record: NutritionRecord): (r: Option<JsValue>)
    ensures Truthy(Get(record, "100 ml")) ==> r == Get(record, "100 ml")
    ensures !Truthy(Get(record, "100 ml")) ==> r == Get(record, "100ml")
    ensures r.Some? ==> exists j | 0 <= j < |record| :: record[j].1 == r.value && (record[j].0 == "100 ml" || record[j].0 == "100ml")
  {
    Or(Get(record, "100 ml"), Get(record, "100ml"))
  }

  /** Reads one found record: its value must be a number and its unit a
      string; the converted value is reported in the display unit when the
      leading tokens agree, and in the converted unit otherwise. */
  function FromRecord(record: NutritionRecord, key: string, targetUnit: string, order: seq<OrderEntry>): (r: Option<Located>)
    ensures r.Some? <==> Per100ml(record).Some? && Per100ml(record).value.Number?
                         && Get(record, "Units").Some? && Get(record, "Units").value.Text?
    ensures r.Some? ==>
      r.value.valuePer100ml == ConvertToBaseUnit(order, Per100ml(record).value.n, Some(Get(record, "Units").value.s), key).value.value
    ensures r.Some? ==>
      var c := ConvertToBaseUnit(order, Per100ml(record).value.n, Some(Get(record, "Units").value.s), key).value;
      (SameUnitToken(c.unit, targetUnit) ==> r.value.unit == targetUnit)
      && (!SameUnitToken(c.unit, targetUnit) ==> r.value.unit == c.unit)
  {
    var v := Per100ml(record);
    var u := Get(record, "Units");
    if v.Some? && v.value.Number? && u.Some? && u.value.Text? then
      var value100ml := v.value.n;
      var unit100ml := u.value.s;
      match ConvertToBaseUnit(order, value100ml, Some(unit100ml), key)
      case Some(c) =>
        if UnitToken(c.unit) == UnitToken(targetUnit) then Some(Located(c.value, targetUnit))
        else Some(Located(c.value, c.unit))
      case None => Some(Located(value100ml, unit100ml))
    else None
  }

  /** `findNutrientInProduct(info, key, targetUnit)`: a found nutrient is
      read from a record carrying its name or one of its aliases. */
  function Locate(info: seq<NutritionRecord>, key: string, targetUnit: string, order: seq<OrderEntry>): (r: Option<Located>)
    ensures r.Some? ==> exists k, i | 0 <= k < |NamesToTry(key)| && 0 <= i < |info| ::
      RecordName(info[i]) == Some(NamesToTry(key)[k]) && r == FromRecord(info[i], key, targetUnit, order)
    ensures (forall k, i | 0 <= k < |NamesToTry(key)| && 0 <= i < |info| :: RecordName(info[i]) != Some(NamesToTry(key)[k]))
      ==> r.None?
  {
    var names := RecordNames(info);
    match FirstMatch(names, NamesToTry(key))
    case Some((k, i)) =>
      assert names[i] == RecordName(info[i]);
      FromRecord(info[i], key, targetUnit, order)
    case None => None
  }

  /** Locating reads the record `FirstMatch` picks. */
  lemma LocateReads(info: seq<NutritionRecord>, key: string, targetUnit: string, order: seq<OrderEntry>, k: nat, i: nat)
    requires FirstMatch(RecordNames(info), NamesToTry(key)) == Some((k, i))
    ensures i < |info|
    ensures Locate(info, key, targetUnit, order) == FromRecord(info[i], key, targetUnit, order)
  {
  }

  /** The first record carrying `keys[k]`, when no earlier name is carried,
      is the match. */
  lemma FirstMatchAt(names: seq<Option<string>>, keys: seq<string>, k: nat, i: nat)
    requires k < |keys| && i < |names| && names[i] == Some(keys[k])
    requires forall j | 0 <= j < i :: names[j] != Some(keys[k])
    requires forall k', j | 0 <= k' < k && 0 <= j < |names| :: names[j] != Some(keys[k'])
    ensures FirstMatch(names, keys) == Some((k, i))
  {
    assert NameIndex(names, keys[k]) == Some(i);
    FirstMatchSkips(names, keys, 0, k);
  }

  /** A record named exactly like the nutrient wins over every alias, and
      the first such record is the one read. */
  lemma ExactNameWins(info: seq<NutritionRecord>, key: string, targetUnit: string, order: seq<OrderEntry>, i: nat)
    requires i < |info| && RecordName(info[i]) == Some(NormalizeName(key))
    requires forall j | 0 <= j < i :: RecordName(info[j]) != Some(NormalizeName(key))
    ensures Locate(info, key, targetUnit, order) == FromRecord(info[i], key, targetUnit, order)
  {
    var names := RecordNames(info);
    var keys := NamesToTry(key);
    assert keys[0] == NormalizeName(key);
    FirstMatchAt(names, keys, 0, i);
    LocateReads(info, key, targetUnit, order, 0, i);
  }

  /** Without an exact name, the first alias some record carries is used. */
  lemma AliasUsedWithoutExactName(info: seq<NutritionRecord>, key: string, targetUnit: string, order: seq<OrderEntry>, k: nat, i: nat)
    requires 1 <= k < |NamesToTry(key)| && i < |info|
    requires RecordName(info[i]) == Some(NamesToTry(key)[k])
    requires forall j | 0 <= j < i :: RecordName(info[j]) != Some(NamesToTry(key)[k])
    requires forall k', j | 0 <= k' < k && 0 <= j < |info| :: RecordName(info[j]) != Some(NamesToTry(key)[k'])
    ensures Locate(info, key, targetUnit, order) == FromRecord(info[i], key, targetUnit, order)
  {
    var names := RecordNames(info);
    var keys := NamesToTry(key);
    FirstMatchAt(names, keys, k, i);
    LocateReads(info, key, targetUnit, order, k, i);
  }

  /** "Dietary Fiber" is read from the first record named "Fibre" when no
      record is named "Dietary Fiber". */
  lemma FibreReadForDietaryFiber(info: seq<NutritionRecord>, targetUnit: string, order: seq<OrderEntry>, i: nat)
    requires i < |info| && RecordName(info[i]) == Some("fibre")
    requires forall j | 0 <= j < i :: RecordName(info[j]) != Some("fibre")
    requires forall j | 0 <= j < |info| :: RecordName(info[j]) != Some("dietary fiber")
    ensures Locate(info, "Dietary Fiber", targetUnit, order) == FromRecord(info[i], "Dietary Fiber", targetUnit, order)
  {
    DietaryFiberNormalized();
    DietaryFiberAliases();
    FirstAliasRead(info, "Dietary Fiber", "dietary fiber", ["fibre"], targetUnit, order, i);
  }

  /** "Total Carb." is read from the first record named "Carbohydrate" when
      no record is named "Total Carb.", whatever records are named "Total
      Carbohydrate": the first alias wins over the second. */
  lemma CarbohydrateReadForTotalCarb(info: seq<NutritionRecord>, targetUnit: string, order: seq<OrderEntry>, i: nat)
    requires i < |info| && RecordName(info[i]) == Some("carbohydrate")
    requires forall j | 0 <= j < i :: RecordName(info[j]) != Some("carbohydrate")
    requires forall j | 0 <= j < |info| :: RecordName(info[j]) != Some("total carb.")
    ensures Locate(info, "Total Carb.", targetUnit, order) == FromRecord(info[i], "Total Carb.", targetUnit, order)
  {
    TotalCarbNormalized();
    TotalCarbAliases();
    FirstAliasRead(info, "Total Carb.", "total carb.", ["carbohydrate", "total carbohydrate"], targetUnit, order, i);
  }

  /** "Total Carb." falls back to "Total Carbohydrate" only when no record
      is named "Total Carb." or "Carbohydrate". */
  lemma TotalCarbohydrateReadForTotalCarb(info: seq<NutritionRecord>, targetUnit: string, order: seq<OrderEntry>, i: nat)
    requires i < |info| && RecordName(info[i]) == Some("total carbohydrate")
    requires forall j | 0 <= j < i :: RecordName(info[j]) != Some("total carbohydrate")
    requires forall j | 0 <= j < |info| :: RecordName(info[j]) != Some("total carb.")
    requires forall j | 0 <= j < |info| :: RecordName(info[j]) != Some("carbohydrate")
    ensures Locate(info, "Total Carb.", targetUnit, order) == FromRecord(info[i], "Total Carb.", targetUnit, order)
  {
    TotalCarbNames();
    ThirdNameMatches(RecordNames(info), ["total carb.", "carbohydrate", "total carbohydrate"], i);
    LocateReads(info, "Total Carb.", targetUnit, order, 2, i);
  }

  /** "Vitamin A (IU)" is read from the first record named "Vitamin A" when
      no record carries the full key. */
  lemma VitaminAReadForVitaminAIu(info: seq<NutritionRecord>, targetUnit: string, order: seq<OrderEntry>, i: nat)
    requires i < |info| && RecordName(info[i]) == Some("vitamin a")
    requires forall j | 0 <= j < i :: RecordName(info[j]) != Some("vitamin a")
    requires forall j | 0 <= j < |info| :: RecordName(info[j]) != Some("vitamin a (iu)")
    ensures Locate(info, "Vitamin A (IU)", targetUnit, order) == FromRecord(info[i], "Vitamin A (IU)", targetUnit, order)
  {
    VitaminAIuNormalized();
    VitaminAIuAliases();
    FirstAliasRead(info, "Vitamin A (IU)", "vitamin a (iu)", ["vitamin a"], targetUnit, order, i);
  }

  /** "Vitamin D (IU)" is read from the first record named "Vitamin D" when
      no record carries the full key. */
  lemma VitaminDReadForVitaminDIu(info: seq<NutritionRecord>, targetUnit: string, order: seq<OrderEntry>, i: nat)
    requires i < |info| && RecordName(info[i]) == Some("vitamin d")
    requires forall j | 0 <= j < i :: RecordName(info[j]) != Some("vitamin d")
    requires forall j | 0 <= j < |info| :: RecordName(info[j]) != Some("vitamin d (iu)")
    ensures Locate(info, "Vitamin D (IU)", targetUnit, order) == FromRecord(info[i], "Vitamin D (IU)", targetUnit, order)
  {
    VitaminDIuNormalized();
    VitaminDIuAliases();
    FirstAliasRead(info, "Vitamin D (IU)", "vitamin d (iu)", ["vitamin d"], targetUnit, order, i);
  }

  /** For a key normalizing to `norm`, the first of its aliases is read
      from its first record when no record carries the key itself. */
  lemma FirstAliasRead(info: seq<NutritionRecord>, key: string, norm: string, aliases: seq<string>,
                       targetUnit: string, order: seq<OrderEntry>, i: nat)
    requires NormalizeName(key) == norm && Aliases(norm) == aliases && |aliases| >= 1
    requires i < |info| && RecordName(info[i]) == Some(aliases[0])
    requires forall j | 0 <= j < i :: RecordName(info[j]) != Some(aliases[0])
    requires forall j | 0 <= j < |info| :: RecordName(info[j]) != Some(norm)
    ensures Locate(info, key, targetUnit, order) == FromRecord(info[i], key, targetUnit, order)
  {
    var keys := NamesToTry(key);
    assert keys[1..] == aliases;
    assert keys[1] == keys[1..][0];
    SecondNameMatches(RecordNames(info), keys, i);
    LocateReads(info, key, targetUnit, order, 1, i);
  }

  lemma SecondNameMatches(names: seq<Option<string>>, keys: seq<string>, i: nat)
    requires |keys| >= 2 && i < |names| && names[i] == Some(keys[1])
    requires forall j | 0 <= j < i :: names[j] != Some(keys[1])
    requires forall j | 0 <= j < |names| :: names[j] != Some(keys[0])
    ensures FirstMatch(names, keys) == Some((1, i))
  {
    FirstMatchAt(names, keys, 1, i);
  }

  lemma ThirdNameMatches(names: seq<Option<string>>, keys: seq<string>, i: nat)
    requires |keys| >= 3 && i < |names| && names[i] == Some(keys[2])
    requires forall j | 0 <= j < i :: names[j] != Some(keys[2])
    requires forall j | 0 <= j < |names| :: names[j] != Some(keys[0])
    requires forall j | 0 <= j < |names| :: names[j] != Some(keys[1])
    ensures FirstMatch(names, keys) == Some((2, i))
  {
    FirstMatchAt(names, keys, 2, i);
  }

  lemma NamesOf(key: string, norm: string, aliases: seq<string>)
    requires NormalizeName(key) == norm && Aliases(norm) == aliases
    ensures NamesToTry(key) == [norm] + aliases
  {
  }

  lemma TotalCarbNames()
    ensures NamesToTry("Total Carb.") == ["total carb.", "carbohydrate", "total carbohydrate"]
  {
    TotalCarbNormalized();
    TotalCarbAliases();
    NamesOf("Total Carb.", "total carb.", ["carbohydrate", "total carbohydrate"]);
  }

  /** Names no record carries are passed over. */
  lemma {:induction false} FirstMatchSkips(names: seq<Option<string>>, keys: seq<string>, from: nat, k: nat)
    requires from <= k <= |keys|
    requires forall k', j | from <= k' < k && 0 <= j < |names| :: names[j] != Some(keys[k'])
    ensures FirstMatch(names, keys, from) == FirstMatch(names, keys, k)
    decreases k - from
  {
    if from < k {
      assert NameIndex(names, keys[from]).None?;
      FirstMatchSkips(names, keys, from + 1, k);
    }
  }

  /** No record carrying the nutrient's name or an alias: nothing is found. */
  lemma UnnamedNutrientMissing(info: seq<NutritionRecord>, key: string, targetUnit: string, order: seq<OrderEntry>)
    requires forall k, j | 0 <= k < |NamesToTry(key)| && 0 <= j < |info| :: RecordName(info[j]) != Some(NamesToTry(key)[k])
    ensures Locate(info, key, targetUnit, order).None?
  {
  }

  /** A 0 under "100 ml" with no "100ml" entry reads as no value. */
  lemma ZeroValueIsMissing(record: NutritionRecord, key: string, targetUnit: string, order: seq<OrderEntry>)
    requires Get(record, "100 ml") == Some(Number(0.0))
    requires Get(record, "100ml").None?
    ensures FromRecord(record, key, targetUnit, order).None?
  {
  }
}
