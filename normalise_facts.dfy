/**
 * What the normaliser guarantees about its result: the three lists are
 * duplicate-free and in first-seen order, every instance-type name appears
 * once, entries with neither `sizes` nor `type` are ignored, and each price
 * column lands where its category and name say.
 */
module NormaliseFacts {
  import opened Wrappers
  import opened JsValues
  import opened Text
  import opened InsertionOrder
  import opened UrlClassifier
  import opened Feeds
  import opened Prices
  import opened Catalog
  import opened Normalise

  /** Every operating-system name a feed can register is non-empty. */
  lemma {:induction false} OsCodesNonEmpty(feeds: seq<Feed>)
    ensures "" !in FeedOsCodes(feeds)
    decreases |feeds|
  {
    if feeds != [] {
      var feed := feeds[|feeds| - 1];
      OsCodesNonEmpty(feeds[..|feeds| - 1]);
      RegionOsCodesNonEmpty(GuessOs(feed.url), feed.regions);
    }
  }

  lemma {:induction false} RegionOsCodesNonEmpty(os: Option<Os>, regs: seq<Region>)
    ensures "" !in OsCodes(os, regs)
    decreases |regs|
  {
    if regs != [] {
      RegionOsCodesNonEmpty(os, regs[..|regs| - 1]);
      if os.Some? {
        assert |AsciiLower(OsName(os.value))| == |OsName(os.value)| > 0;
      }
    }
  }

  /** The listing step: operating-system names are all kept, and each record is listed with its own name unless its extras replace it. */
  lemma FinishFacts(t: Tables, extras: map<string, map<string, Value>>)
    requires Valid(t.catalog)
    requires "" !in t.oses
    ensures var out := Finish(t, extras);
      var names := t.catalog.order;
      && out.regions == t.regions
      && out.operatingSystems == t.oses
      && |out.instanceTypes| == |names|
      && forall i :: 0 <= i < |names| && (names[i] !in extras || "apiName" !in extras[names[i]]) ==>
        "apiName" in out.instanceTypes[i] && out.instanceTypes[i]["apiName"] == Str(names[i])
  {
    var names := t.catalog.order;
    ListingEntries(names, t.catalog.types, extras);
    forall i | 0 <= i < |names| && (names[i] !in extras || "apiName" !in extras[names[i]])
      ensures "apiName" in Finish(t, extras).instanceTypes[i] && Finish(t, extras).instanceTypes[i]["apiName"] == Str(names[i])
    {
      var it := t.catalog.types[names[i]];
      assert it.apiName == names[i];
    }
  }

  /**
   * The result of `awsDataParser`: the regions are the canonical names of
   * all regions of all feeds, each once, in first-seen order (regions
   * without `instanceTypes` included); the operating systems are those
   * registered by regions with `instanceTypes`, each once, in first-seen
   * order; and there is one instance-type record per name looked up, in
   * first-seen order, each carrying that name unless its extras replace it.
   */
  lemma AwsDataParserResult(feeds: seq<Feed>, num: string -> JsNumber, extras: map<string, map<string, Value>>)
    requires AwsDataParser(feeds, num, extras).Ok?
    ensures var out := AwsDataParser(feeds, num, extras).value;
      var names := Dedup(FeedNames(feeds));
      && out.regions == Dedup(FeedRegionCodes(feeds))
      && out.operatingSystems == Dedup(FeedOsCodes(feeds))
      && |out.instanceTypes| == |names|
      && forall i :: 0 <= i < |names| && (names[i] !in extras || "apiName" !in extras[names[i]]) ==>
        "apiName" in out.instanceTypes[i] && out.instanceTypes[i]["apiName"] == Str(names[i])
  {
    FeedsAdvance(EmptyTables, feeds, num);
    var t := FeedsFold(EmptyTables, feeds, num).value;
    assert Valid(EmptyCatalog);
    assert Valid(t.catalog) && t.catalog.order == Dedup(FeedNames(feeds));
    assert t.oses == Dedup(FeedOsCodes(feeds));
    OsCodesNonEmpty(feeds);
    FinishFacts(t, extras);
    assert AwsDataParser(feeds, num, extras).value == Finish(t, extras);
  }

  /** The entries with neither `sizes` nor `type`. */
  function Known(fams: seq<Family>): (r: seq<Family>)
    ensures forall i :: 0 <= i < |r| ==> !r[i].Neither?
    decreases |fams|
  {
    if fams == [] then []
    else if fams[|fams| - 1].Neither? then Known(fams[..|fams| - 1])
    else Known(fams[..|fams| - 1]) + [fams[|fams| - 1]]
  }

  /** An `instanceTypes` entry with neither `sizes` nor `type` changes nothing: dropping all of them gives the same result. */
  lemma {:induction false} NeitherIgnored(c: Catalog, region: string, category: string, osKey: string, fams: seq<Family>, num: string -> JsNumber)
    ensures FamiliesFold(c, region, category, osKey, fams, num) == FamiliesFold(c, region, category, osKey, Known(fams), num)
    decreases |fams|
  {
    if fams != [] {
      var front := fams[..|fams| - 1];
      var last := fams[|fams| - 1];
      NeitherIgnored(c, region, category, osKey, front, num);
      if !last.Neither? {
        var k := Known(front) + [last];
        assert k[..|k| - 1] == Known(front);
      }
    }
  }

  /** `ensurePricingProperties` twice is once. */
  lemma EnsurePricingIdempotent(p: PriceTable, region: string, category: string, osKey: string)
    ensures var q := EnsurePricing(p, region, category, osKey);
      EnsurePricing(q, region, category, osKey) == q
  {
    var q := EnsurePricing(p, region, category, osKey);
    var cat := q[region][category];
    assert cat[osKey := cat[osKey]] == cat;
    assert q[region][category := cat] == q[region];
    assert q[region := q[region]] == q;
  }

  /**
   * Where a price column of a `sizes` entry ends up, read back from the
   * prices after the step; every other key of the category keeps its value. In a reservation category a truthy price is a
   * column of the operating system's object, a falsy one leaves only what
   * `ensurePricingProperties` made; elsewhere "os" is a number at the
   * operating system's key, "ebsOptimized" a number under that name, "ec2"
   * nothing and any other column a number under its lower-cased name.
   * Other regions and categories are untouched.
   */
  lemma SizeColumnPlacement(p: PriceTable, region: string, category: string, osKey: string, col: Column, num: string -> JsNumber)
    requires SizeColumnStep(p, region, category, osKey, col, num).Ok?
    ensures var q := SizeColumnStep(p, region, category, osKey, col, num).value;
      var e := EnsurePricing(p, region, category, osKey);
      var v := num(col.usd);
      && q.Keys == e.Keys && (forall r :: r in e && r != region ==> q[r] == e[r])
      && q[region].Keys == e[region].Keys
      && (forall c :: c in e[region] && c != category ==> q[region][c] == e[region][c])
      && (SizeColumnWrites(category, col.name, v) ==>
            q[region][category].Keys == e[region][category].Keys + {SizeColumnKey(category, osKey, col.name)})
      && (forall k :: k in e[region][category] && k != SizeColumnKey(category, osKey, col.name) ==>
            q[region][category][k] == e[region][category][k])
      && (IsReservation(category) && Truthy(Number(v)) ==>
            q[region][category][osKey] == Columns(e[region][category][osKey].columns[col.name := v]))
      && (IsReservation(category) && !Truthy(Number(v)) ==> q == e)
      && (!IsReservation(category) && col.name == "os" ==> q[region][category][osKey] == Scalar(v))
      && (!IsReservation(category) && col.name == "ebsOptimized" ==> q[region][category]["ebsOptimized"] == Scalar(v))
      && (!IsReservation(category) && col.name == "ec2" ==> q == e)
      && (!IsReservation(category) && col.name !in {"os", "ebsOptimized", "ec2"} ==>
            q[region][category][AsciiLower(col.name)] == Scalar(v))
  {
    var e := EnsurePricing(p, region, category, osKey);
    if (IsReservation(category) && !Truthy(Number(num(col.usd)))) || (!IsReservation(category) && col.name == "ec2") {
      assert e[region][category := e[region][category]] == e[region];
      assert e[region := e[region]] == e;
    }
  }

  /**
   * A purchase option whose price columns were placed: each column is in
   * the operating system's object of the purchase option's category, under
   * `term + "-" + name`, whatever its price (0 and NaN included). The
   * object gains exactly those keys, and the columns it held under other
   * keys keep their values.
   */
  lemma {:induction false} TermColumnsPlacement(cat: CategoryPrices, osKey: string, term: string, cols: seq<Column>, num: string -> JsNumber)
    requires TermColumns(cat, osKey, term, cols, num).Ok?
    ensures var r := TermColumns(cat, osKey, term, cols, num).value;
      && r.Keys == cat.Keys
      && (forall k :: k in cat && k != osKey ==> r[k] == cat[k])
      && (cols != [] ==> osKey in r && r[osKey].Columns?)
      && (forall i :: 0 <= i < |cols| && (forall j :: i < j < |cols| ==> cols[j].name != cols[i].name) ==>
            (term + "-" + cols[i].name) in r[osKey].columns && r[osKey].columns[term + "-" + cols[i].name] == num(cols[i].usd))
      && (osKey in cat && cat[osKey].Columns? ==>
            && osKey in r && r[osKey].Columns?
            && r[osKey].columns.Keys == cat[osKey].columns.Keys + (set i | 0 <= i < |cols| :: term + "-" + cols[i].name)
            && (forall k :: k in cat[osKey].columns && (forall i :: 0 <= i < |cols| ==> k != term + "-" + cols[i].name) ==>
                  r[osKey].columns[k] == cat[osKey].columns[k]))
  {
    TermColumnsPlaced(cat, osKey, term, cols, num);
    if osKey in cat && cat[osKey].Columns? {
      TermColumnsKeeps(cat, osKey, term, cols, num);
    }
  }

  /** Each column's price is in the operating system's object under `term + "-" + name`; the other operating systems keep their values. */
  lemma {:induction false} TermColumnsPlaced(cat: CategoryPrices, osKey: string, term: string, cols: seq<Column>, num: string -> JsNumber)
    requires TermColumns(cat, osKey, term, cols, num).Ok?
    ensures var r := TermColumns(cat, osKey, term, cols, num).value;
      && r.Keys == cat.Keys
      && (forall k :: k in cat && k != osKey ==> r[k] == cat[k])
      && (cols != [] ==> osKey in r && r[osKey].Columns?)
      && (forall i :: 0 <= i < |cols| && (forall j :: i < j < |cols| ==> cols[j].name != cols[i].name) ==>
            (term + "-" + cols[i].name) in r[osKey].columns && r[osKey].columns[term + "-" + cols[i].name] == num(cols[i].usd))
    decreases |cols|
  {
    if cols != [] {
      var front := cols[..|cols| - 1];
      TermColumnsPlaced(cat, osKey, term, front, num);
      var last := cols[|cols| - 1];
      var r0 := TermColumns(cat, osKey, term, front, num).value;
      var r := TermColumns(cat, osKey, term, cols, num).value;
      assert r == r0[osKey := Columns(r0[osKey].columns[term + "-" + last.name := num(last.usd)])];
      forall i | 0 <= i < |cols| && (forall j :: i < j < |cols| ==> cols[j].name != cols[i].name)
        ensures (term + "-" + cols[i].name) in r[osKey].columns && r[osKey].columns[term + "-" + cols[i].name] == num(cols[i].usd)
      {
        if i < |cols| - 1 {
          assert cols[i] == front[i];
          assert last.name != cols[i].name;
          assert term + "-" + last.name != term + "-" + cols[i].name by {
            assert (term + "-" + last.name)[|term| + 1..] == last.name;
            assert (term + "-" + cols[i].name)[|term| + 1..] == cols[i].name;
          }
        }
      }
    }
  }

  /** The operating system's object gains exactly the keys `term + "-" + name` of the columns; the columns it held under other keys keep their values. */
  lemma {:induction false} TermColumnsKeeps(cat: CategoryPrices, osKey: string, term: string, cols: seq<Column>, num: string -> JsNumber)
    requires osKey in cat && cat[osKey].Columns?
    ensures var r := TermColumns(cat, osKey, term, cols, num);
      && r.Ok? && osKey in r.value && r.value[osKey].Columns?
      && r.value[osKey].columns.Keys == cat[osKey].columns.Keys + (set i | 0 <= i < |cols| :: term + "-" + cols[i].name)
      && (forall k :: k in cat[osKey].columns && (forall i :: 0 <= i < |cols| ==> k != term + "-" + cols[i].name) ==>
            r.value[osKey].columns[k] == cat[osKey].columns[k])
    decreases |cols|
  {
    if cols != [] {
      var front := cols[..|cols| - 1];
      var last := cols[|cols| - 1];
      TermColumnsKeeps(cat, osKey, term, front, num);
      var r0 := TermColumns(cat, osKey, term, front, num).value;
      var r := TermColumns(cat, osKey, term, cols, num).value;
      assert r == r0[osKey := Columns(r0[osKey].columns[term + "-" + last.name := num(last.usd)])];
      assert (set i | 0 <= i < |cols| :: term + "-" + cols[i].name)
        == (set i | 0 <= i < |front| :: term + "-" + front[i].name) + {term + "-" + last.name} by {
        forall i | 0 <= i < |front|
          ensures cols[i] == front[i]
        {
        }
        assert cols[|cols| - 1] == last;
      }
      forall k | k in cat[osKey].columns && (forall i :: 0 <= i < |cols| ==> k != term + "-" + cols[i].name)
        ensures r[osKey].columns[k] == cat[osKey].columns[k]
      {
        assert forall i :: 0 <= i < |front| ==> k != term + "-" + front[i].name by {
          forall i | 0 <= i < |front|
            ensures k != term + "-" + front[i].name
          {
            assert cols[i] == front[i];
          }
        }
        assert k != term + "-" + cols[|cols| - 1].name;
      }
    }
  }
}
