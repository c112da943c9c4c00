/**
 * The raw pricing feeds the normaliser reads, as far as it looks into them.
 * Strings stay strings: prices, memory sizes and CPU counts arrive as text
 * and are converted by JavaScript's unary `+` only where the normaliser
 * does so.
 */
module Feeds {
  import opened Wrappers

  /** A price column: its name and its `prices.USD` text. */
  datatype Column = Column(name: string, usd: string)

  /** One entry of a `sizes` list: an instance type with hardware facts and price columns. */
  datatype Size = Size(
    size: string,
    vCpu: string,
    memoryGiB: string,
    storageGB: Option<string>,
    valueColumns: seq<Column>)

  /** A purchase option of a term (for instance "allUpfront") and its price columns. */
  datatype PurchaseOption = PurchaseOption(purchaseOption: string, valueColumns: seq<Column>)

  /** A reservation term (for instance "yrTerm1") and its purchase options. */
  datatype Term = Term(term: string, purchaseOptions: seq<PurchaseOption>)

  /**
   * An entry of a region's `instanceTypes` list: one with a `sizes` field, one
   * with a `type` field (and `terms`), or one with neither, which is skipped.
   * An entry with both fields is read as a `sizes` entry.
   */
  datatype Family =
    | Sizes(sizes: seq<Size>)
    | Typed(typeName: string, terms: seq<Term>)
    | Neither

  /** A region of a feed; `instanceTypes` is `None` when the field is missing or falsy. */
  datatype Region = Region(region: string, instanceTypes: Option<seq<Family>>)

  /** One feed: the URL it was loaded from and its `config.regions`. */
  datatype Feed = Feed(url: string, regions: seq<Region>)
}
