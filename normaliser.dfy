/**
 * `awsDataParser` as the source runs it: nested loops over feeds, regions,
 * `instanceTypes` entries, sizes, terms, purchase options and price
 * columns, each updating the dictionaries it was given. Every loop is
 * proved to compute the fold of `Normalise` that specifies it; once a
 * strict-mode TypeError has been raised, the remaining iterations do
 * nothing and the error is the result.
 */
module Normaliser {
  import opened Wrappers
  import opened JsValues
  import opened Text
  import opened InsertionOrder
  import opened Regions
  import opened UrlClassifier
  import opened Feeds
  import opened Prices
  import opened Catalog
  import opened Normalise

  /** `ensurePricingProperties`, level by level. */
  method EnsurePricingProperties(prices: PriceTable, region: string, category: string, osKey: string) returns (q: PriceTable)
    ensures q == EnsurePricing(prices, region, category, osKey)
  {
    var regionPrices: RegionPrices := map[];
    if region in prices {
      regionPrices := prices[region];
    }
    var pricingCategoryData: CategoryPrices := map[];
    if category in regionPrices {
      pricingCategoryData := regionPrices[category];
    }
    if !(osKey in pricingCategoryData && SlotTruthy(pricingCategoryData[osKey])) {
      pricingCategoryData := pricingCategoryData[osKey := Columns(map[])];
    } else {
      assert pricingCategoryData[osKey := pricingCategoryData[osKey]] == pricingCategoryData;
    }
    q := prices[region := regionPrices[category := pricingCategoryData]];
  }

  /** One price column of a `sizes` entry: `ensurePricingProperties`, then the column's placement. */
  method PlaceSizeColumnStep(prices: PriceTable, region: string, category: string, osKey: string, col: Column, num: string -> JsNumber)
    returns (r: Result<PriceTable, Failure>)
    ensures r == SizeColumnStep(prices, region, category, osKey, col, num)
  {
    var q := EnsurePricingProperties(prices, region, category, osKey);
    var placed := PlaceSizeColumn(q[region][category], category, osKey, col, num);
    if placed.Ok? {
      r := Ok(WithCategory(q, region, category, placed.value));
    } else {
      r := Err(placed.error);
    }
  }

  /** The price columns of one `sizes` entry. */
  method PlaceSizeColumns(prices: PriceTable, region: string, category: string, osKey: string, cols: seq<Column>, num: string -> JsNumber)
    returns (r: Result<PriceTable, Failure>)
    ensures r == SizeColumns(prices, region, category, osKey, cols, num)
  {
    r := Ok(prices);
    var i := 0;
    while i < |cols|
      invariant 0 <= i <= |cols|
      invariant r == SizeColumns(prices, region, category, osKey, cols[..i], num)
    {
      assert cols[..i + 1][..i] == cols[..i];
      if r.Ok? {
        r := PlaceSizeColumnStep(r.value, region, category, osKey, cols[i], num);
      }
      i := i + 1;
    }
    assert cols[..|cols|] == cols;
  }

  /** The price columns of one purchase option, into the operating system's object. */
  method PlaceTermColumns(cat: CategoryPrices, osKey: string, term: string, cols: seq<Column>, num: string -> JsNumber)
    returns (r: Result<CategoryPrices, Failure>)
    ensures r == TermColumns(cat, osKey, term, cols, num)
  {
    r := Ok(cat);
    var i := 0;
    while i < |cols|
      invariant 0 <= i <= |cols|
      invariant r == TermColumns(cat, osKey, term, cols[..i], num)
    {
      assert cols[..i + 1][..i] == cols[..i];
      if r.Ok? {
        var key := term + "-" + cols[i].name;
        r := PutColumn(r.value, osKey, key, num(cols[i].usd));
      }
      i := i + 1;
    }
    assert cols[..|cols|] == cols;
  }

  /** One purchase option: `ensurePricingProperties` with the purchase option as category, then its columns. */
  method PlacePurchaseOption(prices: PriceTable, region: string, osKey: string, term: string, po: PurchaseOption, num: string -> JsNumber)
    returns (r: Result<PriceTable, Failure>)
    ensures r == PurchaseStep(prices, region, osKey, term, po, num)
  {
    var q := EnsurePricingProperties(prices, region, po.purchaseOption, osKey);
    var placed := PlaceTermColumns(q[region][po.purchaseOption], osKey, term, po.valueColumns, num);
    if placed.Ok? {
      r := Ok(WithCategory(q, region, po.purchaseOption, placed.value));
    } else {
      r := Err(placed.error);
    }
  }

  /** The purchase options of one term. */
  method PlacePurchaseOptions(prices: PriceTable, region: string, osKey: string, term: string, pos: seq<PurchaseOption>, num: string -> JsNumber)
    returns (r: Result<PriceTable, Failure>)
    ensures r == PurchaseOptions(prices, region, osKey, term, pos, num)
  {
    r := Ok(prices);
    var i := 0;
    while i < |pos|
      invariant 0 <= i <= |pos|
      invariant r == PurchaseOptions(prices, region, osKey, term, pos[..i], num)
    {
      assert pos[..i + 1][..i] == pos[..i];
      if r.Ok? {
        r := PlacePurchaseOption(r.value, region, osKey, term, pos[i], num);
      }
      i := i + 1;
    }
    assert pos[..|pos|] == pos;
  }

  /** The terms of a `type` entry. */
  method PlaceTerms(prices: PriceTable, region: string, osKey: string, terms: seq<Term>, num: string -> JsNumber)
    returns (r: Result<PriceTable, Failure>)
    ensures r == Terms(prices, region, osKey, terms, num)
  {
    r := Ok(prices);
    var i := 0;
    while i < |terms|
      invariant 0 <= i <= |terms|
      invariant r == Terms(prices, region, osKey, terms[..i], num)
    {
      assert terms[..i + 1][..i] == terms[..i];
      if r.Ok? {
        r := PlacePurchaseOptions(r.value, region, osKey, terms[i].term, terms[i].purchaseOptions, num);
      }
      i := i + 1;
    }
    assert terms[..|terms|] == terms;
  }

  /** One `sizes` entry: look the name up (creating the record), fill its unset hardware facts, place its columns. */
  method ReadSize(c: Catalog, region: string, category: string, osKey: string, s: Size, num: string -> JsNumber)
    returns (r: Result<Catalog, Failure>)
    ensures r == SizeStep(c, region, category, osKey, s, num)
  {
    var types := c;
    if s.size !in types.types {
      types := Catalog(types.order + [s.size], types.types[s.size := CreateInstanceType(s.size)]);
    }
    var it := types.types[s.size];
    it := it.(cpus := Or(it.cpus, Str(s.vCpu)));
    it := it.(ram := Or(it.ram, Number(num(s.memoryGiB))));
    it := it.(disk := Or(it.disk, StorageValue(s.storageGB)));
    var placed := PlaceSizeColumns(it.prices, region, category, osKey, s.valueColumns, num);
    if placed.Ok? {
      r := Ok(types.(types := types.types[s.size := it.(prices := placed.value)]));
    } else {
      r := Err(placed.error);
    }
  }

  /** The entries of a `sizes` list. */
  method ReadSizes(c: Catalog, region: string, category: string, osKey: string, sizes: seq<Size>, num: string -> JsNumber)
    returns (r: Result<Catalog, Failure>)
    ensures r == SizesFold(c, region, category, osKey, sizes, num)
  {
    r := Ok(c);
    var i := 0;
    while i < |sizes|
      invariant 0 <= i <= |sizes|
      invariant r == SizesFold(c, region, category, osKey, sizes[..i], num)
    {
      assert sizes[..i + 1][..i] == sizes[..i];
      if r.Ok? {
        r := ReadSize(r.value, region, category, osKey, sizes[i], num);
      }
      i := i + 1;
    }
    assert sizes[..|sizes|] == sizes;
  }

  /** One entry of a region's `instanceTypes`: a `sizes` list, a `type` with its terms, or neither. */
  method ReadFamily(c: Catalog, region: string, category: string, osKey: string, fam: Family, num: string -> JsNumber)
    returns (r: Result<Catalog, Failure>)
    ensures r == FamilyStep(c, region, category, osKey, fam, num)
  {
    match fam
    case Sizes(sizes) =>
      r := ReadSizes(c, region, category, osKey, sizes, num);
    case Typed(name, terms) =>
      var types := c;
      if name !in types.types {
        types := Catalog(types.order + [name], types.types[name := CreateInstanceType(name)]);
      }
      var placed := PlaceTerms(types.types[name].prices, region, osKey, terms, num);
      if placed.Ok? {
        r := Ok(WithPrices(types, name, placed.value));
      } else {
        r := Err(placed.error);
      }
    case Neither =>
      r := Ok(c);
  }

  /** The entries of a region's `instanceTypes`. */
  method ReadFamilies(c: Catalog, region: string, category: string, osKey: string, fams: seq<Family>, num: string -> JsNumber)
    returns (r: Result<Catalog, Failure>)
    ensures r == FamiliesFold(c, region, category, osKey, fams, num)
  {
    r := Ok(c);
    var i := 0;
    while i < |fams|
      invariant 0 <= i <= |fams|
      invariant r == FamiliesFold(c, region, category, osKey, fams[..i], num)
    {
      assert fams[..i + 1][..i] == fams[..i];
      if r.Ok? {
        r := ReadFamily(r.value, region, category, osKey, fams[i], num);
      }
      i := i + 1;
    }
    assert fams[..|fams|] == fams;
  }

  /** One region of a feed: register its canonical name and, when it has `instanceTypes`, the operating system, then read the entries. */
  method ReadRegion(t: Tables, os: Option<Os>, category: string, reg: Region, num: string -> JsNumber)
    returns (r: Result<Tables, Failure>)
    ensures r == RegionStep(t, os, category, reg, num)
  {
    var regionName := CanonicalRegion(reg.region);
    var regions := t.regions;
    if regionName !in regions {
      regions := regions + [regionName];
    }
    if reg.instanceTypes.Some? {
      var oses := t.oses;
      if os.Some? {
        var lowered := AsciiLower(OsName(os.value));
        if lowered !in oses {
          oses := oses + [lowered];
        }
      }
      var read := ReadFamilies(t.catalog, regionName, category, OsKey(os), reg.instanceTypes.value, num);
      if read.Ok? {
        r := Ok(Tables(read.value, regions, oses));
      } else {
        r := Err(read.error);
      }
    } else {
      r := Ok(t.(regions := regions));
    }
  }

  /** The regions of one feed. */
  method ReadRegions(t: Tables, os: Option<Os>, category: string, regs: seq<Region>, num: string -> JsNumber)
    returns (r: Result<Tables, Failure>)
    ensures r == RegionsFold(t, os, category, regs, num)
  {
    r := Ok(t);
    var i := 0;
    while i < |regs|
      invariant 0 <= i <= |regs|
      invariant r == RegionsFold(t, os, category, regs[..i], num)
    {
      assert regs[..i + 1][..i] == regs[..i];
      if r.Ok? {
        r := ReadRegion(r.value, os, category, regs[i], num);
      }
      i := i + 1;
    }
    assert regs[..|regs|] == regs;
  }

  /** The feeds, each with the operating system and category its URL names. */
  method ReadFeeds(feeds: seq<Feed>, num: string -> JsNumber) returns (r: Result<Tables, Failure>)
    ensures r == FeedsFold(EmptyTables, feeds, num)
  {
    r := Ok(EmptyTables);
    var i := 0;
    while i < |feeds|
      invariant 0 <= i <= |feeds|
      invariant r == FeedsFold(EmptyTables, feeds[..i], num)
    {
      assert feeds[..i + 1][..i] == feeds[..i];
      if r.Ok? {
        var operatingSystem := GuessOs(feeds[i].url);
        var pricingCategory := CategoryName(GuessCategory(feeds[i].url));
        r := ReadRegions(r.value, operatingSystem, pricingCategory, feeds[i].regions, num);
      }
      i := i + 1;
    }
    assert feeds[..|feeds|] == feeds;
  }

  /** One listed record: the record as an object, extended with its extras when there are any. */
  method ListEntry(instanceType: InstanceType, extras: map<string, map<string, Value>>) returns (entry: map<string, Value>)
    ensures entry == Merged(instanceType, extras)
  {
    entry := ToObject(instanceType);
    if instanceType.apiName in extras {
      entry := Extend(entry, extras[instanceType.apiName]);
    }
  }

  /** The instance-type records in first-seen order, each merged with its extras. */
  method ListInstanceTypes(order: seq<string>, types: map<string, InstanceType>, extras: map<string, map<string, Value>>)
    returns (list: seq<map<string, Value>>)
    requires forall i :: 0 <= i < |order| ==> order[i] in types
    ensures list == Listing(order, types, extras)
  {
    list := [];
    var i := 0;
    while i < |order|
      invariant 0 <= i <= |order|
      invariant list == Listing(order[..i], types, extras)
    {
      var entry := ListEntry(types[order[i]], extras);
      ListingPush(order, types, extras, i);
      list := list + [entry];
      i := i + 1;
    }
    assert order[..|order|] == order;
  }

  lemma ListingPush(order: seq<string>, types: map<string, InstanceType>, extras: map<string, map<string, Value>>, i: nat)
    requires forall i :: 0 <= i < |order| ==> order[i] in types
    requires i < |order|
    ensures Listing(order[..i + 1], types, extras) == Listing(order[..i], types, extras) + [Merged(types[order[i]], extras)]
  {
    assert order[..i + 1][..i] == order[..i];
  }

  /** The operating-system names, leaving out empty ones. */
  method ListOperatingSystems(oses: seq<string>) returns (list: seq<string>)
    ensures list == NonEmpty(oses)
  {
    list := [];
    var k := 0;
    while k < |oses|
      invariant 0 <= k <= |oses|
      invariant list == NonEmpty(oses[..k])
    {
      assert oses[..k + 1][..k] == oses[..k];
      if oses[k] != "" {
        list := list + [oses[k]];
      }
      k := k + 1;
    }
    assert oses[..|oses|] == oses;
  }

  /** The three result lists: instance types merged with their extras, regions, and the non-empty operating systems. */
  method ListResults(t: Tables, extras: map<string, map<string, Value>>) returns (out: Output)
    requires Valid(t.catalog)
    ensures out == Finish(t, extras)
  {
    var instanceTypesList := ListInstanceTypes(t.catalog.order, t.catalog.types, extras);
    var regionList: seq<string> := [];
    var j := 0;
    while j < |t.regions|
      invariant 0 <= j <= |t.regions|
      invariant regionList == t.regions[..j]
    {
      regionList := regionList + [t.regions[j]];
      j := j + 1;
    }
    assert t.regions[..|t.regions|] == t.regions;
    var operatingSystemsList := ListOperatingSystems(t.oses);
    out := Output(regionList, operatingSystemsList, instanceTypesList);
  }

  /** `awsDataParser(feeds)`: read the feeds, then list the results. */
  method ParseFeeds(feeds: seq<Feed>, num: string -> JsNumber, extras: map<string, map<string, Value>>)
    returns (r: Result<Output, Failure>)
    ensures r == AwsDataParser(feeds, num, extras)
  {
    var read := ReadFeeds(feeds, num);
    if read.Err? {
      return Err(read.error);
    }
    FeedsAdvance(EmptyTables, feeds, num);
    var out := ListResults(read.value, extras);
    r := Ok(out);
  }
}
