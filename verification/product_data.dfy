/** The shape of the product catalog's records, as the calculation engine
    reads them. A nutrition record is a JSON object; it is kept as the
    ordered key/value list `Object.entries` returns, because the engine
    locates the per-carton figure positionally, as the fourth entry. */
module ProductData {
  import opened Wrappers
  import opened JsText
  import opened JsNumber

  /** A JSON value of the dataset (numbers are exact reals). */
  datatype JsValue = Number(n: real) | Text(s: string) | Null

  /** A nutrition record as its ordered (key, value) entries, e.g.
      Nutrition: "Energy", Units: "Cal", "100 ml": 100, "250 ml": 250. */
  type NutritionRecord = seq<(string, JsValue)>

  datatype Product = Product(productName: string, nutritionalInfo: seq<NutritionRecord>)

  /** The position of the first entry whose key is `key`. */
  function KeyIndex(record: NutritionRecord, key: string, from: nat := 0): (r: Option<nat>)
    ensures r.Some? ==> from <= r.value < |record| && record[r.value].0 == key
    ensures r.Some? ==> forall j | from <= j < r.value :: record[j].0 != key
    ensures r.None? ==> forall j | from <= j < |record| :: record[j].0 != key
    decreases |record| - from
  {
    if from >= |record| then None
    else if record[from].0 == key then Some(from)
    else KeyIndex(record, key, from + 1)
  }

  /** `record[key]`; `None` is `undefined`. */
  function Get(record: NutritionRecord, key: string): (r: Option<JsValue>)
    ensures r.None? <==> forall j | 0 <= j < |record| :: record[j].0 != key
    ensures r.Some? ==> exists j | 0 <= j < |record| :: record[j] == (key, r.value)
  {
    match KeyIndex(record, key)
    case Some(i) => Some(record[i].1)
    case None => None
  }

  /** JavaScript truthiness: `undefined`, `null`, 0 and "" are falsy. */
  predicate Truthy(v: Option<JsValue>) {
    match v
    case None => false
    case Some(Null) => false
    case Some(Number(n)) => n != 0.0
    case Some(Text(s)) => s != ""
  }

  /** JavaScript's `a || b`. */
  function Or(a: Option<JsValue>, b: Option<JsValue>): Option<JsValue> {
    if Truthy(a) then a else b
  }

  /** `parseFloat(v as string)`: a number reads back as itself, a string is
      parsed, and `null` or `undefined` give NaN (`None`). */
  function ParseValue(v: Option<JsValue>): Option<real> {
    match v
    case Some(Number(n)) => Some(n)
    case Some(Text(s)) => ParseFloat(s)
    case _ => None
  }

  /** The record's "Nutrition" name when it is a string. */
  function NutritionName(record: NutritionRecord): Option<string> {
    match Get(record, "Nutrition")
    case Some(Text(s)) => Some(s)
    case _ => None
  }
}
