/** The static product catalog and the two queries the storefront runs over it. */
module Catalog {
  import opened Wrappers
  import opened Sequences
  import opened Text

  /** A product; `price` is in cents. */
  datatype Product = Product(id: int, name: string, price: nat, category: string)

  /** The storefront's catalog, in declaration order. */
  const Products: seq<Product> := [
    Product(1, "Galaxy Pro Max", 99999, "smartphones"),
    Product(2, "UltraBook Pro", 129999, "laptops"),
    Product(3, "Noise-Cancel Headphones", 29999, "audio"),
    Product(4, "Gaming Console X", 49999, "gaming"),
    Product(5, "Smart Watch Elite", 39999, "smartphones"),
    Product(6, "4K Gaming Monitor", 59999, "gaming"),
    Product(7, "Wireless Earbuds Pro", 19999, "audio"),
    Product(8, "MacBook Air M3", 119999, "laptops")
  ]

  /** No two products of `catalog` share an id. */
  ghost predicate UniqueIds(catalog: seq<Product>) {
    forall i, j :: 0 <= i < j < |catalog| ==> catalog[i].id != catalog[j].id
  }

  /** The test `find` applies to each product. */
  function HasId(id: int): Product -> bool {
    (p: Product) => p.id == id
  }

  /** The first product carrying `id`, or nothing when the catalog has none. */
  function FindById(catalog: seq<Product>, id: int): (r: Option<Product>)
    ensures r.Some? ==> r.value in catalog && r.value.id == id
    ensures r.None? <==> forall p :: p in catalog ==> p.id != id
    ensures r.Some? && UniqueIds(catalog) ==>
      forall i :: 0 <= i < |catalog| && catalog[i].id == id ==> catalog[i] == r.value
  {
    match Find(catalog, HasId(id))
    case None => None
    case Some(k) => Some(catalog[k])
  }

  /** The test the category filter applies to each product. */
  function InCategory(category: string): Product -> bool {
    (p: Product) => p.category == category
  }

  /** The category filter: products whose category is exactly `category`, in catalog order. */
  function FilterByCategory(catalog: seq<Product>, category: string): (r: seq<Product>)
    ensures forall p :: p in r <==> p in catalog && p.category == category
    ensures IsSubsequence(r, catalog)
  {
    FilterMembers(catalog, InCategory(category));
    FilterIsSubsequence(catalog, InCategory(category));
    Filter(catalog, InCategory(category))
  }

  /** The category filter keeps every copy of a matching product and no copy of any other. */
  lemma FilterByCategoryCounts(catalog: seq<Product>, category: string)
    ensures forall p :: multiset(FilterByCategory(catalog, category))[p]
                     == if p.category == category then multiset(catalog)[p] else 0
  {
    FilterCounts(catalog, InCategory(category));
  }

  /** Whether a product matches an already lower-cased search term. */
  predicate MatchesTerm(p: Product, lowered: string) {
    Contains(ToLower(p.name), lowered) || Contains(ToLower(p.category), lowered)
  }

  /** A product matches a term exactly when the term occurs in its lower-cased name or category. */
  lemma MatchesTermOccurs(lowered: string)
    ensures forall p: Product :: MatchesTerm(p, lowered) <==>
      ((exists i :: OccursAt(ToLower(p.name), lowered, i)) ||
       (exists i :: OccursAt(ToLower(p.category), lowered, i)))
  {
    forall p: Product
      ensures MatchesTerm(p, lowered) <==>
        ((exists i :: OccursAt(ToLower(p.name), lowered, i)) ||
         (exists i :: OccursAt(ToLower(p.category), lowered, i)))
    {
      ContainsOccurs(ToLower(p.name), lowered);
      ContainsOccurs(ToLower(p.category), lowered);
    }
  }

  /** The test the search applies to each product, given the lower-cased term. */
  function MatchesSearch(lowered: string): Product -> bool {
    (p: Product) => MatchesTerm(p, lowered)
  }

  /** The search box: products whose lower-cased name or category contains the lower-cased term. */
  function Search(catalog: seq<Product>, term: string): (r: seq<Product>)
    ensures forall p :: p in r <==>
      (p in catalog &&
       ((exists i :: OccursAt(ToLower(p.name), ToLower(term), i)) ||
        (exists i :: OccursAt(ToLower(p.category), ToLower(term), i))))
    ensures IsSubsequence(r, catalog)
  {
    MatchesTermOccurs(ToLower(term));
    FilterMembers(catalog, MatchesSearch(ToLower(term)));
    FilterIsSubsequence(catalog, MatchesSearch(ToLower(term)));
    Filter(catalog, MatchesSearch(ToLower(term)))
  }

  /** The search keeps every copy of a matching product and no copy of any other. */
  lemma SearchCounts(catalog: seq<Product>, term: string)
    ensures forall p :: multiset(Search(catalog, term))[p]
                     == if MatchesTerm(p, ToLower(term)) then multiset(catalog)[p] else 0
  {
    FilterCounts(catalog, MatchesSearch(ToLower(term)));
  }

  /** Searching for the empty term shows the whole catalog. */
  lemma SearchEmptyTerm(catalog: seq<Product>)
    ensures Search(catalog, "") == catalog
  {
    forall i | 0 <= i < |catalog|
      ensures MatchesTerm(catalog[i], ToLower(""))
    {
      ContainsEmpty(ToLower(catalog[i].name));
    }
    FilterKeepsAll(catalog, MatchesSearch(ToLower("")));
  }

  /** The search is case-insensitive in its term: pre-lower-casing the term changes nothing. */
  lemma SearchIgnoresTermCase(catalog: seq<Product>, term: string)
    ensures Search(catalog, ToLower(term)) == Search(catalog, term)
  {
    ToLowerIdempotent(term);
  }
}
