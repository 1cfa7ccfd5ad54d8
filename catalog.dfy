/** The storefront home page: the search filter over the fetched products and the featured slice. */
module Catalog {
  import opened Wrappers
  import opened Strings
  import opened Db
  import Seqs

  /** The search predicate: the lowered query in the lowered name, or in the lowered description if there is one. */
  predicate Matches(query: string, p: Product) {
    Contains(Lower(p.name), Lower(query))
    || (p.description.Some? && Contains(Lower(p.description.value), Lower(query)))
  }

  function MatchesQuery(query: string): Product -> bool {
    (p: Product) => Matches(query, p)
  }

  /** `filteredProducts`: the fetched list filtered by a truthy search query, or the list as fetched. */
  function Filtered(products: Option<seq<Product>>, searchQuery: Option<string>): Option<seq<Product>> {
    if Truthy(searchQuery) && products.Some? then Some(Seqs.Filter(products.value, MatchesQuery(searchQuery.value)))
    else products
  }

  /** `featuredProducts`: the first six filtered products, or none while nothing is fetched. */
  function Featured(filtered: Option<seq<Product>>): (r: seq<Product>)
    ensures filtered.None? ==> r == []
    ensures filtered.Some? ==> r == Take(filtered.value, 6)
  {
    match filtered
    case None => []
    case Some(s) => Take(s, 6)
  }

  /** Whether the featured section is rendered. */
  predicate ShowFeatured(searchQuery: Option<string>, featured: seq<Product>) {
    !Truthy(searchQuery) && |featured| > 0
  }

  /** Without a (non-empty) query the fetched list is passed through unchanged. */
  lemma NoQueryKeepsList(products: Option<seq<Product>>, searchQuery: Option<string>)
    requires !Truthy(searchQuery)
    ensures Filtered(products, searchQuery) == products
  {
  }

  /** The search predicate by positions: the lowered query occurs somewhere in the lowered name or description. */
  ghost predicate OccursInProduct(query: string, p: Product) {
    (exists i: nat :: OccursAt(Lower(p.name), Lower(query), i))
    || (p.description.Some? && exists i: nat :: OccursAt(Lower(p.description.value), Lower(query), i))
  }

  /**
   * With a query, a product is kept exactly when the lowered query occurs in its lowered name or
   * description; the kept products keep their order.
   */
  lemma QueryFilter(products: seq<Product>, query: string)
    requires query != ""
    ensures forall p :: p in Filtered(Some(products), Some(query)).value <==> p in products && OccursInProduct(query, p)
    ensures Seqs.IsSubsequence(Filtered(Some(products), Some(query)).value, products)
  {
    forall p
      ensures p in Filtered(Some(products), Some(query)).value <==> p in products && OccursInProduct(query, p)
    {
      Seqs.FilterMembership(products, MatchesQuery(query), p);
      ContainsIff(Lower(p.name), Lower(query));
      if p.description.Some? {
        ContainsIff(Lower(p.description.value), Lower(query));
      }
    }
    Seqs.FilterIsSubsequence(products, MatchesQuery(query));
  }

  /** The featured list is the first min(6, n) products of the filtered list. */
  lemma FeaturedIsFirstSix(filtered: seq<Product>)
    ensures |Featured(Some(filtered))| == if |filtered| < 6 then |filtered| else 6
    ensures forall i :: 0 <= i < |Featured(Some(filtered))| ==> Featured(Some(filtered))[i] == filtered[i]
  {
  }

  /** The featured section appears only without a query, and then shows the first fetched products. */
  lemma FeaturedSectionOnlyWithoutQuery(products: Option<seq<Product>>, searchQuery: Option<string>)
    requires ShowFeatured(searchQuery, Featured(Filtered(products, searchQuery)))
    ensures products.Some? && |products.value| > 0
    ensures Featured(Filtered(products, searchQuery)) == Take(products.value, 6)
  {
  }
}
