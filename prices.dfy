/**
 * The `prices` tree of an instance type, `prices[region][category][key]`,
 * and the writes the normaliser makes into it: `ensurePricingProperties`,
 * the placement of a `sizes` price column, and the placement of a
 * `type`/`terms` price column.
 */
module Prices {
  import opened Wrappers
  import opened JsValues
  import opened Text
  import opened UrlClassifier
  import opened Feeds

  /**
   * What a key of a category holds: a number, or an object of numbers keyed
   * by column. The operating system's key starts as an object; an "os"
   * column replaces it with a number, and "ebsOptimized" and the other
   * columns of a non-reservation category are numbers beside it.
   */
  datatype Slot = Scalar(n: JsNumber) | Columns(columns: map<string, JsNumber>)

  type CategoryPrices = map<string, Slot>
  type RegionPrices = map<string, CategoryPrices>
  type PriceTable = map<string, RegionPrices>

  /**
   * The TypeError strict-mode JavaScript throws when a column is written
   * into a key that holds a number (or nothing) instead of an object.
   */
  datatype Failure = TypeError(key: string, column: string)

  /** JavaScript truthiness of what a key holds: an object always, a number unless it is 0 or NaN. */
  predicate SlotTruthy(s: Slot)
  {
    s.Columns? || Truthy(Number(s.n))
  }

  /** `prices[region]`, with a missing region read as empty. */
  function RegionOf(p: PriceTable, region: string): RegionPrices
  {
    if region in p then p[region] else map[]
  }

  /** `prices[region][category]`, with a missing level read as empty. */
  function CategoryOf(p: PriceTable, region: string, category: string): CategoryPrices
  {
    var rp := RegionOf(p, region);
    if category in rp then rp[category] else map[]
  }

  /**
   * `ensurePricingProperties`: creates `prices[region]` and
   * `prices[region][category]` when missing, and puts an empty object at the
   * operating system's key when that key is missing or falsy. Nothing else
   * changes.
   */
  function EnsurePricing(p: PriceTable, region: string, category: string, osKey: string): (q: PriceTable)
    ensures q.Keys == p.Keys + {region}
    ensures forall r :: r in p && r != region ==> q[r] == p[r]
    ensures q[region].Keys == RegionOf(p, region).Keys + {category}
    ensures forall c :: c in RegionOf(p, region) && c != category ==> q[region][c] == RegionOf(p, region)[c]
    ensures q[region][category].Keys == CategoryOf(p, region, category).Keys + {osKey}
    ensures forall k :: k in CategoryOf(p, region, category) && k != osKey ==>
      q[region][category][k] == CategoryOf(p, region, category)[k]
    ensures SlotTruthy(q[region][category][osKey])
    ensures var cat := CategoryOf(p, region, category);
      osKey in cat && SlotTruthy(cat[osKey]) ==> q[region][category][osKey] == cat[osKey]
    ensures var cat := CategoryOf(p, region, category);
      !(osKey in cat && SlotTruthy(cat[osKey])) ==> q[region][category][osKey] == Columns(map[])
  {
    var cat := CategoryOf(p, region, category);
    var slot := if osKey in cat && SlotTruthy(cat[osKey]) then cat[osKey] else Columns(map[]);
    p[region := RegionOf(p, region)[category := cat[osKey := slot]]]
  }

  /**
   * `category[osKey][name] = v`: adds a column to the object at the
   * operating system's key; when that key holds a number, strict-mode
   * JavaScript throws instead.
   */
  function PutColumn(cat: CategoryPrices, osKey: string, name: string, v: JsNumber): (r: Result<CategoryPrices, Failure>)
    ensures r.Ok? <==> osKey in cat && cat[osKey].Columns?
    ensures r.Err? ==> r.error == TypeError(osKey, name)
    ensures r.Ok? ==> r.value.Keys == cat.Keys
    ensures r.Ok? ==> forall k :: k in cat && k != osKey ==> r.value[k] == cat[k]
    ensures r.Ok? ==> r.value[osKey] == Columns(cat[osKey].columns[name := v])
  {
    if osKey in cat && cat[osKey].Columns? then
      Ok(cat[osKey := Columns(cat[osKey].columns[name := v])])
    else
      Err(TypeError(osKey, name))
  }

  /** Whether a price column of a `sizes` entry writes anything: a truthy price in a reservation category, anything but "ec2" elsewhere. */
  predicate SizeColumnWrites(category: string, name: string, v: JsNumber)
  {
    if IsReservation(category) then Truthy(Number(v)) else name != "ec2"
  }

  /** The key of the category a price column of a `sizes` entry is written under. */
  function SizeColumnKey(category: string, osKey: string, name: string): string
  {
    if IsReservation(category) || name == "os" then osKey
    else if name == "ebsOptimized" then name
    else AsciiLower(name)
  }

  /**
   * Where a price column of a `sizes` entry goes in its category. In a
   * reservation category the column is added to the operating system's
   * object, and only when its price is truthy (neither 0 nor NaN). Otherwise
   * the price is a number beside it: "os" replaces the operating system's
   * object, "ebsOptimized" keeps its name, "ec2" is dropped and every other
   * column is stored under its lower-cased name.
   */
  function PlaceSizeColumn(cat: CategoryPrices, category: string, osKey: string, col: Column, num: string -> JsNumber): (r: Result<CategoryPrices, Failure>)
    ensures r.Err? <==> IsReservation(category) && Truthy(Number(num(col.usd))) && !(osKey in cat && cat[osKey].Columns?)
    ensures r.Ok? && !SizeColumnWrites(category, col.name, num(col.usd)) ==> r.value == cat
    ensures r.Ok? && SizeColumnWrites(category, col.name, num(col.usd)) ==>
      r.value.Keys == cat.Keys + {SizeColumnKey(category, osKey, col.name)}
    ensures r.Ok? ==> forall k :: k in cat && k != SizeColumnKey(category, osKey, col.name) ==> k in r.value && r.value[k] == cat[k]
  {
    var v := num(col.usd);
    if IsReservation(category) then
      if Truthy(Number(v)) then PutColumn(cat, osKey, col.name, v) else Ok(cat)
    else if col.name == "os" then
      Ok(cat[osKey := Scalar(v)])
    else if col.name == "ebsOptimized" then
      Ok(cat[col.name := Scalar(v)])
    else if col.name != "ec2" then
      Ok(cat[AsciiLower(col.name) := Scalar(v)])
    else
      Ok(cat)
  }

  /** Writes a new version of `prices[region][category]`. */
  function WithCategory(p: PriceTable, region: string, category: string, cat: CategoryPrices): PriceTable
    requires region in p
  {
    p[region := p[region][category := cat]]
  }

  /** One price column of a `sizes` entry: `ensurePricingProperties`, then the placement. */
  function SizeColumnStep(p: PriceTable, region: string, category: string, osKey: string, col: Column, num: string -> JsNumber): (r: Result<PriceTable, Failure>)
    ensures r.Err? <==> (
      && IsReservation(category) && Truthy(Number(num(col.usd)))
      && var cat := CategoryOf(p, region, category); osKey in cat && cat[osKey].Scalar? && Truthy(Number(cat[osKey].n)))
    ensures r.Ok? ==> r.value.Keys == p.Keys + {region}
    ensures r.Ok? ==> forall x :: x in p && x != region ==> r.value[x] == p[x]
  {
    var q := EnsurePricing(p, region, category, osKey);
    match PlaceSizeColumn(q[region][category], category, osKey, col, num)
    case Err(e) => Err(e)
    case Ok(cat) => Ok(WithCategory(q, region, category, cat))
  }

  /** The price columns of a `sizes` entry, in order; the first failure ends the walk. */
  function SizeColumns(p: PriceTable, region: string, category: string, osKey: string, cols: seq<Column>, num: string -> JsNumber): (r: Result<PriceTable, Failure>)
    ensures r.Ok? ==> r.value.Keys == if cols == [] then p.Keys else p.Keys + {region}
    ensures r.Ok? ==> forall x :: x in p && x != region ==> r.value[x] == p[x]
    decreases |cols|
  {
    if cols == [] then Ok(p)
    else
      match SizeColumns(p, region, category, osKey, cols[..|cols| - 1], num)
      case Err(e) => Err(e)
      case Ok(q) => SizeColumnStep(q, region, category, osKey, cols[|cols| - 1], num)
  }

  /** The price columns of a purchase option go to `term + "-" + name`, unfiltered. */
  function TermColumns(cat: CategoryPrices, osKey: string, term: string, cols: seq<Column>, num: string -> JsNumber): (r: Result<CategoryPrices, Failure>)
    ensures r.Err? <==> cols != [] && !(osKey in cat && cat[osKey].Columns?)
    ensures r.Ok? ==> r.value.Keys == cat.Keys
    ensures r.Ok? && cols != [] ==> r.value[osKey].Columns?
    decreases |cols|
  {
    if cols == [] then Ok(cat)
    else
      match TermColumns(cat, osKey, term, cols[..|cols| - 1], num)
      case Err(e) => Err(e)
      case Ok(c) =>
        var col := cols[|cols| - 1];
        PutColumn(c, osKey, term + "-" + col.name, num(col.usd))
  }

  /** One purchase option of a term: `ensurePricingProperties` with the purchase option as category, then its columns. */
  function PurchaseStep(p: PriceTable, region: string, osKey: string, term: string, po: PurchaseOption, num: string -> JsNumber): (r: Result<PriceTable, Failure>)
    ensures r.Err? <==> (
      && po.valueColumns != []
      && var cat := CategoryOf(p, region, po.purchaseOption); osKey in cat && cat[osKey].Scalar? && Truthy(Number(cat[osKey].n)))
    ensures r.Ok? ==> r.value.Keys == p.Keys + {region}
    ensures r.Ok? ==> forall x :: x in p && x != region ==> r.value[x] == p[x]
  {
    var q := EnsurePricing(p, region, po.purchaseOption, osKey);
    match TermColumns(q[region][po.purchaseOption], osKey, term, po.valueColumns, num)
    case Err(e) => Err(e)
    case Ok(cat) => Ok(WithCategory(q, region, po.purchaseOption, cat))
  }

  /** The purchase options of one term, in order. */
  function PurchaseOptions(p: PriceTable, region: string, osKey: string, term: string, pos: seq<PurchaseOption>, num: string -> JsNumber): (r: Result<PriceTable, Failure>)
    ensures r.Ok? ==> p.Keys <= r.value.Keys <= p.Keys + {region}
    ensures r.Ok? ==> forall x :: x in p && x != region ==> r.value[x] == p[x]
    decreases |pos|
  {
    if pos == [] then Ok(p)
    else
      match PurchaseOptions(p, region, osKey, term, pos[..|pos| - 1], num)
      case Err(e) => Err(e)
      case Ok(q) => PurchaseStep(q, region, osKey, term, pos[|pos| - 1], num)
  }

  /** The terms of a `type` entry, in order. */
  function Terms(p: PriceTable, region: string, osKey: string, terms: seq<Term>, num: string -> JsNumber): (r: Result<PriceTable, Failure>)
    ensures r.Ok? ==> p.Keys <= r.value.Keys <= p.Keys + {region}
    ensures r.Ok? ==> forall x :: x in p && x != region ==> r.value[x] == p[x]
    decreases |terms|
  {
    if terms == [] then Ok(p)
    else
      match Terms(p, region, osKey, terms[..|terms| - 1], num)
      case Err(e) => Err(e)
      case Ok(q) =>
        var t := terms[|terms| - 1];
        PurchaseOptions(q, region, osKey, t.term, t.purchaseOptions, num)
  }
}
