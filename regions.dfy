/** The legacy region alias table of the pricing feeds. */
module Regions {

  /** Region codes used by older pricing feeds, and the API region each stands for. */
  const LegacyRegions: map<string, string> := map[
    "us-east" := "us-east-1",
    "us-west" := "us-west-1",
    "eu-ireland" := "eu-west-1",
    "apac-sin" := "ap-southeast-1",
    "apac-tokyo" := "ap-northeast-1",
    "apac-syd" := "ap-southeast-2"
  ]

  /**
   * `regionMap[code] || code`: a legacy code is translated, every other code
   * passes through. The result is never itself a legacy code, so translating
   * twice changes nothing.
   */
  function CanonicalRegion(code: string): (name: string)
    ensures code in LegacyRegions ==> name == LegacyRegions[code]
    ensures code !in LegacyRegions ==> name == code
    ensures name !in LegacyRegions
  {
    if code in LegacyRegions then LegacyRegions[code] else code
  }

  /** The aliases the region table exists for, and two codes that are already canonical. */
  lemma KnownAliases()
    ensures CanonicalRegion("us-east") == "us-east-1"
    ensures CanonicalRegion("us-west") == "us-west-1"
    ensures CanonicalRegion("eu-ireland") == "eu-west-1"
    ensures CanonicalRegion("apac-sin") == "ap-southeast-1"
    ensures CanonicalRegion("apac-tokyo") == "ap-northeast-1"
    ensures CanonicalRegion("apac-syd") == "ap-southeast-2"
    ensures CanonicalRegion("us-west-2") == "us-west-2"
    ensures CanonicalRegion("sa-east-1") == "sa-east-1"
  {
  }
}
