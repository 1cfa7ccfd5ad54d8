/** Shipping cost by ZIP prefix, in cents. */
module Shipping {
  import opened Wrappers
  import opened Strings

  /** The priced zones, keyed by the first five ZIP digits. */
  const Zones: map<string, int> := map["01310" := 1000, "04000" := 1500, "10000" := 2000]

  /** The cost of any other zone. */
  const DefaultCost := 2500

  /** `zipCode.slice(0, 5)`. */
  function ZipPrefix(zipCode: string): string {
    Take(zipCode, 5)
  }

  /** GET /calculate; `None` is a missing or non-string `zipCode`. */
  function Calculate(zipCode: Option<string>): (r: Reply<int>)
    ensures !Truthy(zipCode) <==> r == Fail(400, "zipCode is required")
    ensures r.Ok? ==> r.body in {1000, 1500, 2000, 2500}
    ensures r.Ok? && ZipPrefix(zipCode.value) in Zones ==> r.body == Zones[ZipPrefix(zipCode.value)]
    ensures r.Ok? && ZipPrefix(zipCode.value) !in Zones ==> r.body == DefaultCost
  {
    if !Truthy(zipCode) then Fail(400, "zipCode is required")
    else
      var prefix := ZipPrefix(zipCode.value);
      Ok(if prefix in Zones then Zones[prefix] else DefaultCost)
  }

  /** The three priced prefixes. */
  lemma ZoneCosts(zipCode: string)
    requires |zipCode| >= 5
    ensures zipCode[..5] == "01310" ==> Calculate(Some(zipCode)) == Ok(1000)
    ensures zipCode[..5] == "04000" ==> Calculate(Some(zipCode)) == Ok(1500)
    ensures zipCode[..5] == "10000" ==> Calculate(Some(zipCode)) == Ok(2000)
  {
  }

  /** Only the first five characters matter. */
  lemma CostDependsOnPrefixOnly(a: string, b: string)
    requires ZipPrefix(a) == ZipPrefix(b)
    ensures Calculate(Some(a)) == Calculate(Some(b))
  {
  }

  /** A ZIP shorter than five characters is looked up whole, and so never names a priced zone. */
  lemma ShortZipCostsDefault(zipCode: string)
    requires 0 < |zipCode| < 5
    ensures Calculate(Some(zipCode)) == Ok(DefaultCost)
  {
    assert ZipPrefix(zipCode) == zipCode;
    assert forall z :: z in Zones ==> |z| == 5;
  }
}
