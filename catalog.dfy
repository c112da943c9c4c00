/**
 * The `instanceTypes` dictionary of the normaliser: instance-type records
 * keyed by API name, in the order the names were first seen, and the
 * hardware facts that are filled in only while unset.
 */
module Catalog {
  import opened Wrappers
  import opened JsValues
  import opened InsertionOrder
  import opened DiskSpec
  import opened Feeds
  import opened Prices

  /** An instance-type record; `Undefined` stands for a field not yet assigned. */
  datatype InstanceType = InstanceType(apiName: string, prices: PriceTable, cpus: Value, ram: Value, disk: Value)

  /** `createInstanceType`: a record with its name and no prices. */
  function CreateInstanceType(apiName: string): (it: InstanceType)
    ensures it.apiName == apiName && it.prices == map[]
    ensures !Truthy(it.cpus) && !Truthy(it.ram) && !Truthy(it.disk)
  {
    InstanceType(apiName, map[], Undefined, Undefined, Undefined)
  }

  /** The dictionary: its keys in first-write order and the record under each. */
  datatype Catalog = Catalog(order: seq<string>, types: map<string, InstanceType>)

  const EmptyCatalog := Catalog([], map[])

  /** Each key is listed once, the listed keys are the dictionary's, and each record carries its own key as name. */
  predicate Valid(c: Catalog)
  {
    && NoDup(c.order)
    && (forall k :: k in c.types ==> k in c.order)
    && (forall i :: 0 <= i < |c.order| ==> c.order[i] in c.types)
    && (forall k :: k in c.types ==> c.types[k].apiName == k)
  }

  /** `instanceTypes[name] || (instanceTypes[name] = createInstanceType(name))`. */
  function Discover(c: Catalog, apiName: string): (r: Catalog)
    ensures apiName in r.types
    ensures apiName in c.types ==> r == c
    ensures apiName !in c.types ==> r.types == c.types[apiName := CreateInstanceType(apiName)]
    ensures Valid(c) ==> Valid(r) && r.order == Register(c.order, apiName)
  {
    if apiName in c.types then c
    else Catalog(c.order + [apiName], c.types[apiName := CreateInstanceType(apiName)])
  }

  /** A parsed disk record as the JavaScript object `parseDisk` builds: only the fields it set. */
  function DiskValue(d: Disk): Value
  {
    Object(
      (if d.ebsOnly.Some? then map["ebsOnly" := Bool(d.ebsOnly.value)] else map[]) +
      (if d.disks.Some? then map["disks" := Number(Finite(d.disks.value as real))] else map[]) +
      (if d.size.Some? then map["size" := Number(Finite(d.size.value as real))] else map[]) +
      (if d.ssd.Some? then map["ssd" := Bool(d.ssd.value)] else map[]))
  }

  /** `storageGB && parseDisk(storageGB)`: a missing or empty description is kept as it is. */
  function StorageValue(storage: Option<string>): (v: Value)
    ensures storage.Some? && storage.value != "" ==> Truthy(v)
    ensures storage.None? || storage.value == "" ==> !Truthy(v)
  {
    match storage
    case None => Undefined
    case Some(text) => if text == "" then Str("") else DiskValue(ParseDisk(text))
  }

  /**
   * The hardware facts of a `sizes` entry: `cpus`, `ram` and `disk` are each
   * assigned only while the record's value is falsy, so the first truthy
   * value wins. Name and prices are not touched.
   */
  function FillHardware(it: InstanceType, s: Size, num: string -> JsNumber): (r: InstanceType)
    ensures r.apiName == it.apiName && r.prices == it.prices
    ensures Truthy(it.cpus) ==> r.cpus == it.cpus
    ensures !Truthy(it.cpus) ==> r.cpus == Str(s.vCpu)
    ensures Truthy(it.ram) ==> r.ram == it.ram
    ensures !Truthy(it.ram) ==> r.ram == Number(num(s.memoryGiB))
    ensures Truthy(it.disk) ==> r.disk == it.disk
    ensures !Truthy(it.disk) ==> r.disk == StorageValue(s.storageGB)
  {
    it.(cpus := Or(it.cpus, Str(s.vCpu)),
        ram := Or(it.ram, Number(num(s.memoryGiB))),
        disk := Or(it.disk, StorageValue(s.storageGB)))
  }

  /** Every record of `c` is still in `c'` under the same name, and its truthy hardware facts are unchanged. */
  predicate Keeps(c: Catalog, c': Catalog)
  {
    forall k :: k in c.types ==>
      && k in c'.types
      && c'.types[k].apiName == c.types[k].apiName
      && (Truthy(c.types[k].cpus) ==> c'.types[k].cpus == c.types[k].cpus)
      && (Truthy(c.types[k].ram) ==> c'.types[k].ram == c.types[k].ram)
      && (Truthy(c.types[k].disk) ==> c'.types[k].disk == c.types[k].disk)
  }

  /** `c'` is `c` after the names `names` were looked up: still valid, new names listed in first-seen order, nothing truthy lost. */
  predicate Grows(c: Catalog, c': Catalog, names: seq<string>)
  {
    && (Valid(c) ==> Valid(c') && c'.order == AddAll(c.order, names))
    && Keeps(c, c')
  }

  lemma GrowsTrans(c1: Catalog, c2: Catalog, c3: Catalog, n1: seq<string>, n2: seq<string>)
    requires Grows(c1, c2, n1) && Grows(c2, c3, n2)
    ensures Grows(c1, c3, n1 + n2)
  {
    if Valid(c1) {
      AddAllAppend(c1.order, n1, n2);
    }
  }

  /** Replaces the prices of a record that is in the dictionary. */
  function WithPrices(c: Catalog, apiName: string, p: PriceTable): (r: Catalog)
    requires apiName in c.types
    ensures r.order == c.order && r.types.Keys == c.types.Keys
    ensures r.types[apiName].prices == p
    ensures forall k :: k in c.types && k != apiName ==> r.types[k] == c.types[k]
  {
    c.(types := c.types[apiName := c.types[apiName].(prices := p)])
  }
}
