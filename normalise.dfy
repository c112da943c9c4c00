/**
 * `awsDataParser` as functions: the fold of the pricing feeds into the
 * instance-type dictionary, the region set and the operating-system set,
 * and the listing of the three at the end. Each level of the source's
 * nested `forEach` loops is a fold over its list that recurses on the last
 * element; a failure (the strict-mode TypeError) ends the whole run.
 */
module Normalise {
  import opened Wrappers
  import opened JsValues
  import opened Text
  import opened InsertionOrder
  import opened Regions
  import opened UrlClassifier
  import opened Feeds
  import opened Prices
  import opened Catalog

  /** One `sizes` entry: look the name up, fill its hardware facts, place its price columns. */
  function SizeStep(c: Catalog, region: string, category: string, osKey: string, s: Size, num: string -> JsNumber): (r: Result<Catalog, Failure>)
    ensures r.Ok? ==> r.value.types.Keys == c.types.Keys + {s.size}
    ensures r.Ok? ==> forall k :: k in c.types && k != s.size ==> r.value.types[k] == c.types[k]
  {
    var c1 := Discover(c, s.size);
    var it := FillHardware(c1.types[s.size], s, num);
    match SizeColumns(it.prices, region, category, osKey, s.valueColumns, num)
    case Err(e) => Err(e)
    case Ok(p) => Ok(c1.(types := c1.types[s.size := it.(prices := p)]))
  }

  /** The entries of a `sizes` list, in order. */
  function SizesFold(c: Catalog, region: string, category: string, osKey: string, sizes: seq<Size>, num: string -> JsNumber): (r: Result<Catalog, Failure>)
    ensures r.Ok? ==> forall k :: k in r.value.types <==> k in c.types || k in SizeNames(sizes)
    ensures r.Ok? ==> forall k :: k in c.types && k !in SizeNames(sizes) ==> r.value.types[k] == c.types[k]
    decreases |sizes|
  {
    if sizes == [] then Ok(c)
    else
      match SizesFold(c, region, category, osKey, sizes[..|sizes| - 1], num)
      case Err(e) => Err(e)
      case Ok(c') => SizeStep(c', region, category, osKey, sizes[|sizes| - 1], num)
  }

  /**
   * One entry of a region's `instanceTypes`: a `sizes` list, a `type` with
   * its terms (the category of its prices is the purchase option), or
   * neither, which changes nothing.
   */
  function FamilyStep(c: Catalog, region: string, category: string, osKey: string, fam: Family, num: string -> JsNumber): (r: Result<Catalog, Failure>)
    ensures fam.Neither? ==> r == Ok(c)
    ensures r.Ok? ==> forall k :: k in r.value.types <==> k in c.types || k in FamilyNamesOf(fam)
    ensures r.Ok? ==> forall k :: k in c.types && k !in FamilyNamesOf(fam) ==> r.value.types[k] == c.types[k]
  {
    match fam
    case Sizes(sizes) => SizesFold(c, region, category, osKey, sizes, num)
    case Typed(name, terms) =>
      var c1 := Discover(c, name);
      (match Terms(c1.types[name].prices, region, osKey, terms, num)
       case Err(e) => Err(e)
       case Ok(p) => Ok(WithPrices(c1, name, p)))
    case Neither => Ok(c)
  }

  /** The entries of a region's `instanceTypes`, in order. */
  function FamiliesFold(c: Catalog, region: string, category: string, osKey: string, fams: seq<Family>, num: string -> JsNumber): (r: Result<Catalog, Failure>)
    ensures r.Ok? ==> forall k :: k in r.value.types <==> k in c.types || k in FamilyNames(fams)
    ensures r.Ok? ==> forall k :: k in c.types && k !in FamilyNames(fams) ==> r.value.types[k] == c.types[k]
    decreases |fams|
  {
    if fams == [] then Ok(c)
    else
      match FamiliesFold(c, region, category, osKey, fams[..|fams| - 1], num)
      case Err(e) => Err(e)
      case Ok(c') => FamilyStep(c', region, category, osKey, fams[|fams| - 1], num)
  }

  /** The three dictionaries of the normaliser; regions and operating systems are sets kept in first-write order. */
  datatype Tables = Tables(catalog: Catalog, regions: seq<string>, oses: seq<string>)

  const EmptyTables := Tables(EmptyCatalog, [], [])

  /** JavaScript turns a `null` operating system into the key "null". */
  function OsKey(os: Option<Os>): (k: string)
    ensures k != ""
    ensures k == "null" <==> os.None?
  {
    if os.Some? then OsName(os.value) else "null"
  }

  /**
   * One region of a feed: its canonical name is always registered; only
   * when it has `instanceTypes` is the feed's operating system registered
   * (lower-cased, when there is one) and are its entries read.
   */
  function RegionStep(t: Tables, os: Option<Os>, category: string, reg: Region, num: string -> JsNumber): (r: Result<Tables, Failure>)
    ensures reg.instanceTypes.None? ==> r.Ok? && r.value.catalog == t.catalog && r.value.oses == t.oses
    ensures r.Ok? ==> forall x :: x in r.value.regions <==> x in t.regions || x == CanonicalRegion(reg.region)
    ensures r.Ok? ==> forall k :: k in r.value.catalog.types <==> k in t.catalog.types || k in RegionNamesOf(reg)
  {
    var name := CanonicalRegion(reg.region);
    var regions := Register(t.regions, name);
    match reg.instanceTypes
    case None => Ok(t.(regions := regions))
    case Some(fams) =>
      var oses := if os.Some? then Register(t.oses, AsciiLower(OsName(os.value))) else t.oses;
      match FamiliesFold(t.catalog, name, category, OsKey(os), fams, num)
      case Err(e) => Err(e)
      case Ok(c) => Ok(Tables(c, regions, oses))
  }

  /** The regions of a feed, in order. */
  function RegionsFold(t: Tables, os: Option<Os>, category: string, regs: seq<Region>, num: string -> JsNumber): (r: Result<Tables, Failure>)
    ensures r.Ok? ==> forall x :: x in r.value.regions <==> x in t.regions || x in RegionCodes(regs)
    ensures r.Ok? ==> forall k :: k in r.value.catalog.types <==> k in t.catalog.types || k in RegionNames(regs)
    decreases |regs|
  {
    if regs == [] then Ok(t)
    else
      match RegionsFold(t, os, category, regs[..|regs| - 1], num)
      case Err(e) => Err(e)
      case Ok(t') => RegionStep(t', os, category, regs[|regs| - 1], num)
  }

  /** One feed: operating system and category come from its URL. */
  function FeedStep(t: Tables, feed: Feed, num: string -> JsNumber): (r: Result<Tables, Failure>)
    ensures r.Ok? ==> forall x :: x in r.value.regions <==> x in t.regions || x in RegionCodes(feed.regions)
    ensures r.Ok? ==> forall k :: k in r.value.catalog.types <==> k in t.catalog.types || k in RegionNames(feed.regions)
  {
    RegionsFold(t, GuessOs(feed.url), CategoryName(GuessCategory(feed.url)), feed.regions, num)
  }

  /** The feeds, in order. */
  function FeedsFold(t: Tables, feeds: seq<Feed>, num: string -> JsNumber): (r: Result<Tables, Failure>)
    ensures r.Ok? ==> forall x :: x in r.value.regions <==> x in t.regions || x in FeedRegionCodes(feeds)
    ensures r.Ok? ==> forall k :: k in r.value.catalog.types <==> k in t.catalog.types || k in FeedNames(feeds)
    decreases |feeds|
  {
    if feeds == [] then Ok(t)
    else
      match FeedsFold(t, feeds[..|feeds| - 1], num)
      case Err(e) => Err(e)
      case Ok(t') => FeedStep(t', feeds[|feeds| - 1], num)
  }

  /** The names a `sizes` list looks up, in order. */
  function SizeNames(sizes: seq<Size>): seq<string>
    decreases |sizes|
  {
    if sizes == [] then [] else SizeNames(sizes[..|sizes| - 1]) + [sizes[|sizes| - 1].size]
  }

  function FamilyNamesOf(fam: Family): seq<string>
  {
    match fam
    case Sizes(sizes) => SizeNames(sizes)
    case Typed(name, _) => [name]
    case Neither => []
  }

  /** The names the entries of an `instanceTypes` list look up, in order. */
  function FamilyNames(fams: seq<Family>): seq<string>
    decreases |fams|
  {
    if fams == [] then [] else FamilyNames(fams[..|fams| - 1]) + FamilyNamesOf(fams[|fams| - 1])
  }

  /** A region without `instanceTypes` looks up no names. */
  function RegionNamesOf(reg: Region): seq<string>
  {
    if reg.instanceTypes.Some? then FamilyNames(reg.instanceTypes.value) else []
  }

  /** The names the regions of a feed look up, in order. */
  function RegionNames(regs: seq<Region>): seq<string>
    decreases |regs|
  {
    if regs == [] then [] else RegionNames(regs[..|regs| - 1]) + RegionNamesOf(regs[|regs| - 1])
  }

  /** The names the feeds look up, in order. */
  function FeedNames(feeds: seq<Feed>): seq<string>
    decreases |feeds|
  {
    if feeds == [] then [] else FeedNames(feeds[..|feeds| - 1]) + RegionNames(feeds[|feeds| - 1].regions)
  }

  /** The canonical names of the regions of a feed, in order, with or without `instanceTypes`. */
  function RegionCodes(regs: seq<Region>): seq<string>
    decreases |regs|
  {
    if regs == [] then [] else RegionCodes(regs[..|regs| - 1]) + [CanonicalRegion(regs[|regs| - 1].region)]
  }

  function FeedRegionCodes(feeds: seq<Feed>): seq<string>
    decreases |feeds|
  {
    if feeds == [] then [] else FeedRegionCodes(feeds[..|feeds| - 1]) + RegionCodes(feeds[|feeds| - 1].regions)
  }

  /** A region registers the feed's operating system when it has `instanceTypes` and the feed has an operating system. */
  function OsCodesOf(os: Option<Os>, reg: Region): seq<string>
  {
    if reg.instanceTypes.Some? && os.Some? then [AsciiLower(OsName(os.value))] else []
  }

  /** The operating-system names the regions of a feed register, in order. */
  function OsCodes(os: Option<Os>, regs: seq<Region>): seq<string>
    decreases |regs|
  {
    if regs == [] then [] else OsCodes(os, regs[..|regs| - 1]) + OsCodesOf(os, regs[|regs| - 1])
  }

  function FeedOsCodes(feeds: seq<Feed>): seq<string>
    decreases |feeds|
  {
    if feeds == [] then []
    else
      var feed := feeds[|feeds| - 1];
      FeedOsCodes(feeds[..|feeds| - 1]) + OsCodes(GuessOs(feed.url), feed.regions)
  }

  lemma GrowsRefl(c: Catalog)
    ensures Grows(c, c, [])
  {
    assert AddAll(c.order, []) == c.order;
  }

  lemma AddOne(xs: seq<string>, x: string)
    ensures AddAll(xs, [x]) == Register(xs, x)
  {
    assert [x][..0] == [];
  }

  /** A `sizes` entry looks up its name; records keep their truthy hardware facts. */
  lemma SizeStepGrows(c: Catalog, region: string, category: string, osKey: string, s: Size, num: string -> JsNumber)
    requires SizeStep(c, region, category, osKey, s, num).Ok?
    ensures Grows(c, SizeStep(c, region, category, osKey, s, num).value, [s.size])
  {
    AddOne(c.order, s.size);
  }

  /**
   * After a `sizes` entry, its record's hardware facts are the ones it had
   * where they were truthy and the entry's own otherwise (a record created
   * by this entry has none).
   */
  lemma SizeStepFills(c: Catalog, region: string, category: string, osKey: string, s: Size, num: string -> JsNumber)
    requires SizeStep(c, region, category, osKey, s, num).Ok?
    ensures var before := if s.size in c.types then c.types[s.size] else CreateInstanceType(s.size);
      var after := SizeStep(c, region, category, osKey, s, num).value.types[s.size];
      && (Truthy(before.cpus) ==> after.cpus == before.cpus)
      && (!Truthy(before.cpus) ==> after.cpus == Str(s.vCpu))
      && (Truthy(before.ram) ==> after.ram == before.ram)
      && (!Truthy(before.ram) ==> after.ram == Number(num(s.memoryGiB)))
      && (Truthy(before.disk) ==> after.disk == before.disk)
      && (!Truthy(before.disk) ==> after.disk == StorageValue(s.storageGB))
  {
  }

  lemma {:induction false} SizesGrow(c: Catalog, region: string, category: string, osKey: string, sizes: seq<Size>, num: string -> JsNumber)
    requires SizesFold(c, region, category, osKey, sizes, num).Ok?
    ensures Grows(c, SizesFold(c, region, category, osKey, sizes, num).value, SizeNames(sizes))
    decreases |sizes|
  {
    if sizes == [] {
      GrowsRefl(c);
    } else {
      var front := sizes[..|sizes| - 1];
      SizesGrow(c, region, category, osKey, front, num);
      var c' := SizesFold(c, region, category, osKey, front, num).value;
      SizeStepGrows(c', region, category, osKey, sizes[|sizes| - 1], num);
      GrowsTrans(c, c', SizesFold(c, region, category, osKey, sizes, num).value, SizeNames(front), [sizes[|sizes| - 1].size]);
    }
  }

  lemma FamilyStepGrows(c: Catalog, region: string, category: string, osKey: string, fam: Family, num: string -> JsNumber)
    requires FamilyStep(c, region, category, osKey, fam, num).Ok?
    ensures Grows(c, FamilyStep(c, region, category, osKey, fam, num).value, FamilyNamesOf(fam))
  {
    match fam
    case Sizes(sizes) => SizesGrow(c, region, category, osKey, sizes, num);
    case Typed(name, _) => AddOne(c.order, name);
    case Neither => GrowsRefl(c);
  }

  lemma {:induction false} FamiliesGrow(c: Catalog, region: string, category: string, osKey: string, fams: seq<Family>, num: string -> JsNumber)
    requires FamiliesFold(c, region, category, osKey, fams, num).Ok?
    ensures Grows(c, FamiliesFold(c, region, category, osKey, fams, num).value, FamilyNames(fams))
    decreases |fams|
  {
    if fams == [] {
      GrowsRefl(c);
    } else {
      var front := fams[..|fams| - 1];
      FamiliesGrow(c, region, category, osKey, front, num);
      var c' := FamiliesFold(c, region, category, osKey, front, num).value;
      FamilyStepGrows(c', region, category, osKey, fams[|fams| - 1], num);
      GrowsTrans(c, c', FamiliesFold(c, region, category, osKey, fams, num).value, FamilyNames(front), FamilyNamesOf(fams[|fams| - 1]));
    }
  }

  /** `t'` is `t` after a run that looked up `names` and registered the regions `regionCodes` and the operating systems `osCodes`. */
  predicate Advances(t: Tables, t': Tables, names: seq<string>, regionCodes: seq<string>, osCodes: seq<string>)
  {
    && Grows(t.catalog, t'.catalog, names)
    && t'.regions == AddAll(t.regions, regionCodes)
    && t'.oses == AddAll(t.oses, osCodes)
  }

  lemma AdvancesTrans(t1: Tables, t2: Tables, t3: Tables, n1: seq<string>, n2: seq<string>, r1: seq<string>, r2: seq<string>, o1: seq<string>, o2: seq<string>)
    requires Advances(t1, t2, n1, r1, o1) && Advances(t2, t3, n2, r2, o2)
    ensures Advances(t1, t3, n1 + n2, r1 + r2, o1 + o2)
  {
    GrowsTrans(t1.catalog, t2.catalog, t3.catalog, n1, n2);
    AddAllAppend(t1.regions, r1, r2);
    AddAllAppend(t1.oses, o1, o2);
  }

  lemma AdvancesRefl(t: Tables)
    ensures Advances(t, t, [], [], [])
  {
    GrowsRefl(t.catalog);
    assert AddAll(t.regions, []) == t.regions;
    assert AddAll(t.oses, []) == t.oses;
  }

  lemma RegionStepAdvances(t: Tables, os: Option<Os>, category: string, reg: Region, num: string -> JsNumber)
    requires RegionStep(t, os, category, reg, num).Ok?
    ensures Advances(t, RegionStep(t, os, category, reg, num).value,
      RegionNamesOf(reg), [CanonicalRegion(reg.region)], OsCodesOf(os, reg))
  {
    var name := CanonicalRegion(reg.region);
    AddOne(t.regions, name);
    if reg.instanceTypes.Some? {
      FamiliesGrow(t.catalog, name, category, OsKey(os), reg.instanceTypes.value, num);
      if os.Some? {
        AddOne(t.oses, AsciiLower(OsName(os.value)));
      } else {
        assert AddAll(t.oses, []) == t.oses;
      }
    } else {
      GrowsRefl(t.catalog);
      assert AddAll(t.oses, []) == t.oses;
    }
  }

  lemma {:induction false} RegionsAdvance(t: Tables, os: Option<Os>, category: string, regs: seq<Region>, num: string -> JsNumber)
    requires RegionsFold(t, os, category, regs, num).Ok?
    ensures Advances(t, RegionsFold(t, os, category, regs, num).value, RegionNames(regs), RegionCodes(regs), OsCodes(os, regs))
    decreases |regs|
  {
    if regs == [] {
      AdvancesRefl(t);
    } else {
      var front := regs[..|regs| - 1];
      var reg := regs[|regs| - 1];
      RegionsAdvance(t, os, category, front, num);
      var t' := RegionsFold(t, os, category, front, num).value;
      RegionStepAdvances(t', os, category, reg, num);
      AdvancesTrans(t, t', RegionsFold(t, os, category, regs, num).value,
        RegionNames(front), RegionNamesOf(reg), RegionCodes(front), [CanonicalRegion(reg.region)],
        OsCodes(os, front), OsCodesOf(os, reg));
    }
  }

  lemma {:induction false} FeedsAdvance(t: Tables, feeds: seq<Feed>, num: string -> JsNumber)
    requires FeedsFold(t, feeds, num).Ok?
    ensures Advances(t, FeedsFold(t, feeds, num).value, FeedNames(feeds), FeedRegionCodes(feeds), FeedOsCodes(feeds))
    decreases |feeds|
  {
    if feeds == [] {
      AdvancesRefl(t);
    } else {
      var front := feeds[..|feeds| - 1];
      var feed := feeds[|feeds| - 1];
      FeedsAdvance(t, front, num);
      var t' := FeedsFold(t, front, num).value;
      RegionsAdvance(t', GuessOs(feed.url), CategoryName(GuessCategory(feed.url)), feed.regions, num);
      AdvancesTrans(t, t', FeedsFold(t, feeds, num).value,
        FeedNames(front), RegionNames(feed.regions), FeedRegionCodes(front), RegionCodes(feed.regions),
        FeedOsCodes(front), OsCodes(GuessOs(feed.url), feed.regions));
    }
  }

  /** The normaliser's result. */
  datatype Output = Output(regions: seq<string>, operatingSystems: seq<string>, instanceTypes: seq<map<string, Value>>)

  function SlotValue(s: Slot): Value
  {
    match s
    case Scalar(n) => Number(n)
    case Columns(cols) => Object(map k | k in cols :: Number(cols[k]))
  }

  /** The `prices` tree as the JavaScript object it is. */
  function PricesValue(p: PriceTable): Value
  {
    Object(map r | r in p ::
      Object(map c | c in p[r] ::
        Object(map k | k in p[r][c] :: SlotValue(p[r][c][k]))))
  }

  /** A field that was never assigned is not in the object. */
  function Field(name: string, v: Value): (r: map<string, Value>)
    ensures r.Keys <= {name}
    ensures name in r <==> v != Undefined
    ensures name in r ==> r[name] == v
  {
    if v == Undefined then map[] else map[name := v]
  }

  /** An instance-type record as the JavaScript object it is. */
  function ToObject(it: InstanceType): (m: map<string, Value>)
    ensures "apiName" in m && m["apiName"] == Str(it.apiName)
    ensures "prices" in m && m["prices"] == PricesValue(it.prices)
    ensures m.Keys <= {"apiName", "prices", "cpus", "ram", "disk"}
    ensures ("cpus" in m <==> it.cpus != Undefined) && ("cpus" in m ==> m["cpus"] == it.cpus)
    ensures ("ram" in m <==> it.ram != Undefined) && ("ram" in m ==> m["ram"] == it.ram)
    ensures ("disk" in m <==> it.disk != Undefined) && ("disk" in m ==> m["disk"] == it.disk)
  {
    var base := map["apiName" := Str(it.apiName), "prices" := PricesValue(it.prices)];
    assert base.Keys == {"apiName", "prices"};
    var withCpus := base + Field("cpus", it.cpus);
    var withRam := withCpus + Field("ram", it.ram);
    withRam + Field("disk", it.disk)
  }

  /**
   * `angular.extend(instanceType, extras[apiName])` when there is an extras
   * entry: its fields override the record's; without one the record is
   * listed as it is.
   */
  function Merged(it: InstanceType, extras: map<string, map<string, Value>>): map<string, Value>
  {
    MergeExtras(ToObject(it), it.apiName, extras)
  }

  /** The object of the record named `apiName`, with the fields of its extras entry, if any, written over it. */
  function MergeExtras(obj: map<string, Value>, apiName: string, extras: map<string, map<string, Value>>): (m: map<string, Value>)
    ensures apiName !in extras ==> m == obj
    ensures apiName in extras ==> m.Keys == obj.Keys + extras[apiName].Keys
    ensures apiName in extras ==> forall f :: f in extras[apiName] ==> m[f] == extras[apiName][f]
    ensures forall f :: f in obj && (apiName !in extras || f !in extras[apiName]) ==> m[f] == obj[f]
  {
    if apiName in extras then Extend(obj, extras[apiName]) else obj
  }

  /** The instance-type records in the order of their keys, each merged with its extras. */
  function Listing(order: seq<string>, types: map<string, InstanceType>, extras: map<string, map<string, Value>>): (r: seq<map<string, Value>>)
    requires forall i :: 0 <= i < |order| ==> order[i] in types
    ensures |r| == |order|
    decreases |order|
  {
    if order == [] then []
    else Listing(order[..|order| - 1], types, extras) + [Merged(types[order[|order| - 1]], extras)]
  }

  /** The listing holds, at each position, the record under that position's key merged with its extras. */
  lemma {:induction false} ListingEntries(order: seq<string>, types: map<string, InstanceType>, extras: map<string, map<string, Value>>)
    requires forall i :: 0 <= i < |order| ==> order[i] in types
    ensures forall i :: 0 <= i < |order| ==> Listing(order, types, extras)[i] == Merged(types[order[i]], extras)
    decreases |order|
  {
    if order != [] {
      var front := order[..|order| - 1];
      ListingEntries(front, types, extras);
      forall i | 0 <= i < |order|
        ensures Listing(order, types, extras)[i] == Merged(types[order[i]], extras)
      {
        if i < |order| - 1 {
          assert order[i] == front[i];
        }
      }
    }
  }

  /** `operatingSystem && operatingSystem !== ""`: the listed operating systems. */
  function NonEmpty(xs: seq<string>): (r: seq<string>)
    ensures forall i :: 0 <= i < |r| ==> r[i] != ""
    ensures forall x :: x in r <==> x in xs && x != ""
    ensures (forall i :: 0 <= i < |xs| ==> xs[i] != "") ==> r == xs
    decreases |xs|
  {
    if xs == [] then []
    else
      var front := NonEmpty(xs[..|xs| - 1]);
      if xs[|xs| - 1] != "" then front + [xs[|xs| - 1]] else front
  }

  /** The three lists the normaliser returns. */
  function Finish(t: Tables, extras: map<string, map<string, Value>>): (out: Output)
    requires Valid(t.catalog)
    ensures out.regions == t.regions
    ensures forall x :: x in out.operatingSystems <==> x in t.oses && x != ""
    ensures |out.instanceTypes| == |t.catalog.order|
  {
    Output(t.regions, NonEmpty(t.oses), Listing(t.catalog.order, t.catalog.types, extras))
  }

  /** `awsDataParser`: the feeds folded in order, then listed; extras are merged into the listed records. */
  function AwsDataParser(feeds: seq<Feed>, num: string -> JsNumber, extras: map<string, map<string, Value>>): (r: Result<Output, Failure>)
    ensures r.Ok? ==> r.value.regions == Dedup(FeedRegionCodes(feeds))
    ensures r.Ok? ==> forall x :: x in r.value.operatingSystems <==> x in FeedOsCodes(feeds) && x != ""
    ensures r.Ok? ==> |r.value.instanceTypes| == |Dedup(FeedNames(feeds))|
  {
    match FeedsFold(EmptyTables, feeds, num)
    case Err(e) => Err(e)
    case Ok(t) =>
      FeedsAdvance(EmptyTables, feeds, num);
      Ok(Finish(t, extras))
  }
}
