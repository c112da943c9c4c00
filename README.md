# EC2 pricing normaliser, in Dafny

This project models the utilities in `public/app/ec2pricing/utils.js` of the EC2 pricing web application:

- **`awsDataParser`** reads the AWS pricing feeds into three lists:
  - the regions;
  - the operating systems;
  - the instance types, each carrying its hardware facts and a `prices[region][category][key]` tree.

  It depends on four helpers:
  - the legacy region alias table (`regionMap`);
  - the instance-storage parser (`parseDisk`);
  - the two URL classifiers (`guessOsFromUrl` and `guessCategoryFromUrl`);
  - the per-instance-type `extras` that are merged into the result.
- **`cache`** memoises the results of a producer in `localStorage`. Entries use the `ec2pricing:` prefix and a 30-minute time to live. It also has `clear` and `prune`.

Modules, in dependency order:

| module | file | what it holds |
|---|---|---|
| `Wrappers` | wrappers.dfy | `Option` and `Result` |
| `Text` | text.dfy | character classes, greedy runs, substring search, ASCII lower-casing, decimal digits |
| `JsValues` | jsvalues.dfy | JavaScript values, truthiness, `a \|\| b` and `angular.extend` |
| `UrlClassifier` | classify.dfy | `guessOsFromUrl` and `guessCategoryFromUrl` as ordered rule lists; `/reservation/i` |
| `Regions` | regions.dfy | `regionMap[code] \|\| code` |
| `Feeds` | feeds.dfy | the feed documents, as far as the normaliser reads them |
| `Prices` | prices.dfy | the `prices` tree, `ensurePricingProperties`, and where each price column is written |
| `InsertionOrder` | ordered.dfy | the key order of a JavaScript object used as a dictionary |
| `DiskSpec` | disk.dfy | `parseDisk`, with both regular expressions written as greedy scanners |
| `Catalog` | catalog.dfy | the `instanceTypes` dictionary, `createInstanceType`, and the hardware facts that are filled only while unset |
| `Normalise` | normalise.dfy | the normaliser as folds over feeds, regions, entries, sizes, terms and columns; the final listing with extras merged |
| `NormaliseFacts` | normalise_facts.dfy | what the normaliser's result is, stated over all inputs |
| `Normaliser` | normaliser.dfy | the same algorithm as nested loops over local dictionaries, each loop proved to compute its fold |
| `TtlCache` | cache.dfy | the cache's store, the lookup, `clear` and `prune`, as functions and as a class over the store |

Some JavaScript behaviour is written out explicitly:
- Strict-mode `TypeError` is a `Failure` result. It arises when a column is written into a key that holds a number.
- A `null` operating system becomes the key `"null"`.
- Unary `+` is a parameter `num: string -> JsNumber` whose result may be NaN.

## Model

| member | source | states |
|---|---|---|
| Regions.CanonicalRegion | public/app/ec2pricing/utils.js:78-85 | A legacy code maps to its table entry and every other code passes through. The result is never a legacy code, so aliasing twice changes nothing. |
| Regions.KnownAliases | public/app/ec2pricing/utils.js:78-85 | Each of the six legacy codes gives its API region, and canonical codes are unchanged. |
| UrlClassifier.GuessOs | public/app/ec2pricing/utils.js:108-124 | There is no result exactly when no operating-system rule fires. Otherwise the result is the result of the first rule that fires, with rules tried in source order. |
| UrlClassifier.OsRulesFire | public/app/ec2pricing/utils.js:109-119 | Each rule fires exactly when one of its substrings occurs in the URL. The two SQL Server rules search the lower-cased URL. |
| UrlClassifier.SqlWebNeverSql | public/app/ec2pricing/utils.js:113-116 | A URL containing "mswinsqlweb" also fires the "mswinsql" rule. Even so, it is never classified "mswinsql": its result is "mswinsqlweb", or Red Hat or SUSE when an earlier rule fires. |
| UrlClassifier.GuessCategory | public/app/ec2pricing/utils.js:126-142 | The result is "other" exactly when no category rule fires. Otherwise it is the first rule that fires, in source order. |
| UrlClassifier.CategoryRulesFire | public/app/ec2pricing/utils.js:127-138 | Each category rule fires exactly when one of its substrings occurs in the URL. |
| UrlClassifier.IsReservation | public/app/ec2pricing/utils.js:194 | A category containing "reservation" in lower, capitalised or upper case matches `/reservation/i`, and a match is at least eleven characters long. |
| UrlClassifier.ReservationCategories | public/app/ec2pricing/utils.js:194 | Among the category names, `/reservation/i` matches the four reservation kinds and nothing else. |
| DiskSpec.ParseDisk | public/app/ec2pricing/utils.js:87-106 | `ebsOnly` is set iff the text is "ebsonly", and then the record is ebsOnly true, 0 disks, size 0, not SSD. Otherwise the record is either empty or has disks, size and ssd all set. |
| DiskSpec.ScanTimes | public/app/ec2pricing/utils.js:94 | A match of the `N x M [label]` scanner is a layout of its input: blanks, digits, blanks, `x`, blanks, digits, blanks, word characters, blanks, in that order and covering the whole text. |
| DiskSpec.ScanLabel | public/app/ec2pricing/utils.js:98 | A match of the `N label` scanner is a layout of its input: blanks, digits, blanks, word characters, blanks, covering the whole text. |
| DiskSpec.MatchTimesComplete | public/app/ec2pricing/utils.js:94 | Every text of the form `\s*\d+\s*x\s*\d+\s*\w*\s*` is matched by the scanner. The count is captured exactly, and the size capture is greedy. |
| DiskSpec.MatchTimesSound | public/app/ec2pricing/utils.js:94 | What the `N x M` scanner returns is a decomposition of its input with the regular expression's shape. |
| DiskSpec.MatchSizeLabelComplete | public/app/ec2pricing/utils.js:98 | Every text of the form `\s*\d+\s*\w+\s*` is matched by the `N label` scanner. |
| DiskSpec.MatchSizeLabelSound | public/app/ec2pricing/utils.js:98 | What the `N label` scanner returns is a decomposition of its input with the regular expression's shape. |
| DiskSpec.ParseTimesForm | public/app/ec2pricing/utils.js:94-97 | Text in the `N x M label` form gives N disks. When the size ends where the layout says, each disk has size M, and it is SSD exactly when the label is "SSD". |
| DiskSpec.ParseLabelForm | public/app/ec2pricing/utils.js:98-101 | Text in the `N label` form, with the label parted from the number and not also readable as `N x M label`, gives one disk of size N. It is SSD exactly when the label is "SSD". |
| DiskSpec.LabelNotTimes | public/app/ec2pricing/utils.js:94-98 | Text in the `N label` form is not read as `N x M label` unless its label is an `x` followed by a digit, so the first expression lets it through to the second. |
| DiskSpec.ParseBareNumber | public/app/ec2pricing/utils.js:98-101 | A bare number of two or more digits is matched by backtracking. Its last digit becomes the label, so the size loses that digit. |
| DiskSpec.ParseOneDigit | public/app/ec2pricing/utils.js:94-105 | A bare one-digit number matches neither expression, so the record stays empty. |
| DiskSpec.ParseDiskEmpty | public/app/ec2pricing/utils.js:102-105 | The record is empty iff the text is not "ebsonly" and has neither expression's form. |
| DiskSpec.ParseTimesExample | public/app/ec2pricing/utils.js:94-97 | "2 x 40 SSD" gives 2 disks of 40, SSD. |
| DiskSpec.ParseLabelExample | public/app/ec2pricing/utils.js:98-101 | "10 GB" gives 1 disk of 10, not SSD. |
| DiskSpec.ParseXLabelExample | public/app/ec2pricing/utils.js:94-101 | "10 xlarge" fails the `N x M` expression, since no digit follows the `x`, and gives 1 disk of 10, not SSD. |
| DiskSpec.ParseBareNumberExample | public/app/ec2pricing/utils.js:98-101 | "160" gives 1 disk of 16, not SSD. |
| Prices.EnsurePricing | public/app/ec2pricing/utils.js:153-167 | The region and category are created when missing. The operating system's key becomes an empty object when it is missing or falsy and otherwise keeps its value. Every other key at every level is unchanged. |
| NormaliseFacts.EnsurePricingIdempotent | public/app/ec2pricing/utils.js:153-167 | Ensuring the pricing properties twice is the same as ensuring them once. |
| Prices.PutColumn | public/app/ec2pricing/utils.js:197 | Writing a column succeeds iff the operating system's key holds an object. On success only that object gains the column; otherwise the result is a TypeError naming the key and the column. |
| NormaliseFacts.SizeColumnPlacement | public/app/ec2pricing/utils.js:192-207 | Where a `sizes` price column lands. In a reservation category: a truthy price is a column of the OS object, and 0 or NaN writes nothing. Otherwise: "os" replaces the OS key, "ebsOptimized" keeps its name, "ec2" is dropped, and any other column goes under its lower-cased name. The category gains exactly the key written, every other key of it keeps its value, and other regions and categories are untouched. |
| NormaliseFacts.TermColumnsPlacement | public/app/ec2pricing/utils.js:215-221 | Each column of a purchase option (its last write per name) sits in the OS object under `term + "-" + name`, whatever its price. The category's other keys are unchanged. When the OS object already existed, it gains exactly the keys `term + "-" + name` and its other columns keep their values. |
| NormaliseFacts.TermColumnsPlaced | public/app/ec2pricing/utils.js:218-221 | Each column's last write per name is in the OS object under `term + "-" + name`; the category keeps its key set and its other operating systems. |
| NormaliseFacts.TermColumnsKeeps | public/app/ec2pricing/utils.js:218-221 | Writing the columns into an existing OS object never fails; the object gains exactly the keys `term + "-" + name`, and its other columns keep their values. |
| NormaliseFacts.NeitherIgnored | public/app/ec2pricing/utils.js:182-225 | Entries with neither `sizes` nor `type` change nothing: dropping them gives the same result. |
| Catalog.CreateInstanceType | public/app/ec2pricing/utils.js:149-151 | A new record carries its name and no prices, and its hardware facts are unset (falsy). |
| Catalog.Discover | public/app/ec2pricing/utils.js:185-188 | A known name leaves the dictionary as it is. An unknown one gets a fresh record with its name and no prices, appended to the key order. Validity is kept. |
| Catalog.StorageValue | public/app/ec2pricing/utils.js:191 | `storageGB && parseDisk(storageGB)` is truthy exactly when the storage text is present and non-empty. |
| Catalog.FillHardware | public/app/ec2pricing/utils.js:189-191 | `cpus`, `ram` and `disk` keep a truthy value and otherwise take the entry's value, so the first truthy value wins. The name and prices are untouched. |
| Prices.PlaceSizeColumn | public/app/ec2pricing/utils.js:194-207 | Placing one `sizes` column in a category fails iff the category is a reservation, the price is truthy and the OS key does not hold an object. A column that writes nothing (falsy reservation price, or "ec2") leaves the category as it is; one that writes adds exactly its key, and every other key keeps its value. |
| Prices.SizeColumnStep | public/app/ec2pricing/utils.js:192-207 | After ensuring the pricing properties, a column fails iff it is a truthy reservation price and the OS key holds a truthy number. On success the table has exactly the old regions plus this one, and other regions are unchanged. |
| Prices.SizeColumns | public/app/ec2pricing/utils.js:192-208 | The column fold adds the region exactly when there is a column, and leaves other regions unchanged. |
| Prices.TermColumns | public/app/ec2pricing/utils.js:218-221 | Writing a purchase option's columns fails iff there is a column and the OS key does not hold an object. On success the category keeps its key set and, with a column, the OS key holds an object. |
| Prices.PurchaseStep | public/app/ec2pricing/utils.js:216-222 | One purchase option fails iff it has a column and the OS key of its category holds a truthy number. On success the table has exactly the old regions plus this one, and other regions are unchanged. |
| Prices.PurchaseOptions | public/app/ec2pricing/utils.js:216-222 | The purchase-option fold adds at most this region, and other regions are unchanged. |
| Prices.Terms | public/app/ec2pricing/utils.js:215-223 | The term fold adds at most this region, and other regions are unchanged. |
| Normalise.OsKey | public/app/ec2pricing/utils.js:162-164 | The operating system used as a property name is never empty, and it is "null" exactly when there is no operating system. |
| Normalise.SizeStep | public/app/ec2pricing/utils.js:184-208 | A `sizes` entry adds its size name to the dictionary; every other record is unchanged. |
| Normalise.SizesFold | public/app/ec2pricing/utils.js:184-209 | The `sizes` loop leaves exactly the old names plus the sizes' names in the dictionary; a record not named by a size is unchanged. |
| Normalise.FamilyStep | public/app/ec2pricing/utils.js:183-224 | An entry with neither `sizes` nor `type` changes nothing. Otherwise the dictionary gains exactly the names the entry looks up, and other records are unchanged. |
| Normalise.FamiliesFold | public/app/ec2pricing/utils.js:182-225 | The `instanceTypes` loop leaves exactly the old names plus those its entries look up; a record none of them names is unchanged. |
| Normalise.RegionStep | public/app/ec2pricing/utils.js:173-229 | A region without `instanceTypes` never fails and changes neither the dictionary nor the operating systems. The regions gain exactly its canonical name, and the dictionary exactly the names its entries look up. |
| Normalise.RegionsFold | public/app/ec2pricing/utils.js:173-229 | The region loop registers exactly the regions' canonical names and adds exactly the names their entries look up. |
| Normalise.FeedStep | public/app/ec2pricing/utils.js:169-230 | One feed registers exactly its regions' canonical names and adds exactly the names their entries look up. |
| Normalise.FeedsFold | public/app/ec2pricing/utils.js:169-230 | The feed loop registers exactly the canonical names of all regions of all feeds and adds exactly the names their entries look up. |
| Normalise.ToObject | public/app/ec2pricing/utils.js:149-151 | The record as an object has its `apiName` and `prices`; `cpus`, `ram` and `disk` are present exactly when set, with their values, and there is no other key. |
| Normalise.Listing | public/app/ec2pricing/utils.js:236-242 | The listing has one object per key of the dictionary. |
| Normalise.Finish | public/app/ec2pricing/utils.js:232-258 | The regions are listed as registered, the operating systems are the non-empty registered ones, and there is one instance type per key of the dictionary. |
| Normalise.AwsDataParser | public/app/ec2pricing/utils.js:144-258 | On success the regions are the canonical region names of all feeds, each once, in first-seen order; the operating systems are exactly the non-empty lower-cased ones of feeds with regions that have `instanceTypes`; and there is one instance type per distinct name looked up. |
| Normalise.SizeStepFills | public/app/ec2pricing/utils.js:184-191 | After a `sizes` entry, each hardware fact of its record is the old truthy value, or else the entry's. |
| Normalise.FeedsAdvance | public/app/ec2pricing/utils.js:169-230 | Folding the feeds grows the dictionary by every name looked up, in first-seen order, and never loses a truthy fact. It registers every region's canonical name, and the operating system only for regions with `instanceTypes`. |
| Normalise.MergeExtras | public/app/ec2pricing/utils.js:236-242 | Without an extras entry the record is listed as it is. With one, its fields override and the record's other fields stay. |
| Normalise.ListingEntries | public/app/ec2pricing/utils.js:236-242 | Position i of the list is the record under the i-th key, merged with its extras. |
| Normalise.NonEmpty | public/app/ec2pricing/utils.js:248-252 | Only non-empty names are listed. A list with no empty name is kept whole. |
| NormaliseFacts.FinishFacts | public/app/ec2pricing/utils.js:232-258 | Regions and operating systems are listed as registered. There is one listed record per key, carrying its own `apiName` unless its extras replace it. |
| NormaliseFacts.AwsDataParserResult | public/app/ec2pricing/utils.js:144-258 | On success the regions, operating systems and instance-type names are each listed once, in first-seen order across all feeds. Each record carries its own `apiName` unless its extras replace it. |
| InsertionOrder.Register | public/app/ec2pricing/utils.js:175 | Writing a key adds it at the end when new and leaves a known key in place. Keys stay duplicate-free. |
| InsertionOrder.DedupFirstSeen | public/app/ec2pricing/utils.js:244-246 | Listing a dictionary gives its keys in the order of their first write. |
| InsertionOrder.AddAllAppend | public/app/ec2pricing/utils.js:169-230 | Writing two batches of keys is the same as writing their concatenation. |
| Normaliser.EnsurePricingProperties | public/app/ec2pricing/utils.js:153-167 | The level-by-level code computes `Prices.EnsurePricing`. |
| Normaliser.PlaceSizeColumns | public/app/ec2pricing/utils.js:192-208 | The column loop computes the `sizes` column fold, stopping at the first TypeError. |
| Normaliser.PlaceTermColumns | public/app/ec2pricing/utils.js:218-221 | The column loop of a purchase option computes the fold that `TermColumnsPlacement` describes. |
| Normaliser.PlacePurchaseOptions | public/app/ec2pricing/utils.js:216-222 | The purchase-option loop calls `ensurePricingProperties` with the option's own category, then places its columns. |
| Normaliser.PlaceTerms | public/app/ec2pricing/utils.js:215-223 | The term loop computes the fold over terms. |
| Normaliser.ReadSize | public/app/ec2pricing/utils.js:184-208 | One `sizes` entry: the record is looked up or created, the hardware facts are filled, and the columns are placed. |
| Normaliser.ReadSizes | public/app/ec2pricing/utils.js:184-209 | The `sizes` loop computes its fold. |
| Normaliser.ReadFamily | public/app/ec2pricing/utils.js:183-224 | A `sizes` entry, a `type` entry, or neither, read as the fold step specifies. |
| Normaliser.ReadFamilies | public/app/ec2pricing/utils.js:182-225 | The `instanceTypes` loop computes its fold. |
| Normaliser.ReadRegion | public/app/ec2pricing/utils.js:173-229 | One region registers its canonical name. With `instanceTypes`, it also registers the lower-cased operating system and reads its entries. |
| Normaliser.ReadRegions | public/app/ec2pricing/utils.js:173-229 | The region loop computes its fold. |
| Normaliser.ReadFeeds | public/app/ec2pricing/utils.js:169-230 | The feed loop, starting from empty dictionaries, classifies each URL and computes the feeds fold. |
| Normaliser.ListEntry | public/app/ec2pricing/utils.js:237-241 | One listed record is the record merged with its extras entry, if any. |
| Normaliser.ListInstanceTypes | public/app/ec2pricing/utils.js:236-242 | The listing loop pushes each record, merged with its extras, in key order. |
| Normaliser.ListOperatingSystems | public/app/ec2pricing/utils.js:248-252 | The listing loop skips empty names. |
| Normaliser.ListResults | public/app/ec2pricing/utils.js:232-258 | The three listing loops build the normaliser's output. |
| Normaliser.ParseFeeds | public/app/ec2pricing/utils.js:144-258 | The whole parser, as loops, equals `Normalise.AwsDataParser`, so `AwsDataParserResult` describes its result. |
| TtlCache.Fresh | public/app/ec2pricing/utils.js:44-45 | A stored entry is fresh iff the time since its write is below `TTL`; a missing entry iff the clock itself is below `TTL`. |
| TtlCache.WrittenAt | public/app/ec2pricing/utils.js:44 | A missing entry counts as written at time 0. |
| TtlCache.AfterGet | public/app/ec2pricing/utils.js:40-56 | A fresh hit leaves the store unchanged, and so does a failed production. Otherwise the produced value is stored under the prefixed key with the time it arrived. No other key changes. |
| TtlCache.Answer | public/app/ec2pricing/utils.js:41-54 | A fresh entry answers with its cached value. A stale or missing entry answers with the producer's outcome. A missing entry that counts as fresh, which only happens on a clock before `TTL`, is a TypeError. Once the clock has passed `TTL`, nothing throws. |
| TtlCache.GetThenHit | public/app/ec2pricing/utils.js:40-56 | After a miss stores v, every lookup within the time to live answers v without the producer and changes nothing. |
| TtlCache.Cleared | public/app/ec2pricing/utils.js:57-67 | Keys outside the prefix are kept, and no entry changes. Without a filter no cache key is left. With one, a cache key stays iff the filter rejects its unprefixed key, value and time. |
| TtlCache.Doomed | public/app/ec2pricing/utils.js:59-62 | A key outside the prefix is never deleted. A cache key is deleted without a filter, and with one iff the filter accepts its unprefixed key, value and time. |
| TtlCache.StaleAtAge | public/app/ec2pricing/utils.js:69-72 | The pruning filter accepts an entry iff its age at the clock is at least `TTL`. |
| TtlCache.Pruned | public/app/ec2pricing/utils.js:68-73 | The result holds exactly the keys that are not cache entries at least `TTL` old. |
| TtlCache.PruneKeepsLookups | public/app/ec2pricing/utils.js:68-73 | Once the clock has passed `TTL`, pruning changes neither what a lookup at the same time answers nor whether it calls the producer. |
| TtlCache.PrunedAllFresh | public/app/ec2pricing/utils.js:68-73 | Every cache entry left after pruning is fresh. |
| TtlCache.Cache.Get | public/app/ec2pricing/utils.js:40-56 | The producer runs iff the entry is not fresh. The answer (or TypeError) is `Answer` of the old store, and the new store is `AfterGet` of it. |
| TtlCache.Cache.Clear | public/app/ec2pricing/utils.js:57-67 | The loop over the store's keys leaves the store equal to `Cleared` of the old store. |
| TtlCache.Cache.Prune | public/app/ec2pricing/utils.js:68-73 | `clear` with the age filter leaves the store equal to `Pruned` of the old store. |

## Left out

- `focus`, `jsonpLoader` and `pricingDataLoader` are not part of this model. They are DOM events, script loading and promise plumbing.
- Feed and `localStorage` encoding are left out: JSON parsing and `angular.toJson`/`angular.fromJson` are not modelled. The feeds are typed documents and the store is a typed map of entries, so non-cache keys of `localStorage` are typed as entries too.
- Unary `+` on price, memory and size strings is left out. Prices and memory take an arbitrary parameter `num` (a finite number or NaN; infinities are not modelled). The disk sizes are the decimal value of their digits.
- `String.prototype.toLowerCase` is modelled for ASCII letters only.
- Properties JavaScript objects inherit through prototypes (`"sizes" in x`, `regionMap[x]` for x a key such as `"constructor"`) are left out.
- The order in which JavaScript enumerates integer-like keys is left out: keys are listed in first-write order.
- An `undefined` field and a missing one are the same in the model.
- `instanceTypeExtras` entries are objects (`map`s). A falsy non-object entry, which the source skips, is not modelled.
- `instanceTypes` entries with both `sizes` and `type` are read as `sizes` entries, as the source's `if` order does. The model has no separate case for them.
- Normaliser.ReadFeeds: after a TypeError the remaining iterations do nothing and the error is the result. The source aborts by exception, with the dictionaries half-updated; the model keeps no partial state.
- TtlCache.Cache.Prune: the clock is read once per `prune`, while the source reads it once per entry.
- TtlCache.PruneKeepsLookups: requires the clock to have passed `TTL`. Before that, a stale entry with a negative write time could be pruned while a missing entry still counts as fresh.
- The time of a lookup and the time the producer finishes are parameters (`now`, `doneAt`).
- The producer is the outcome it delivers (`Option`). Its extra arguments, the promise machinery and `$q.when` are left out.
- `console.warn` on an unparsable disk description is left out; it only logs.
- `clear` on a cache key whose stored text is not a JSON object is left out: the typed store cannot hold one.
