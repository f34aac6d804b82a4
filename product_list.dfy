/**
 * The public catalogue page (components/ProductList.tsx): the search box
 * and the low-stock badge. The admin inventory tab uses the same search.
 */
module ProductList {

  import opened Seqs
  import opened Text
  import opened Types

  /** The product's lower-cased name or category contains the lower-cased term. */
  predicate MatchesSearch(p: Product, term: string)
  {
    Contains(ToLower(p.name), ToLower(term)) || Contains(ToLower(p.category), ToLower(term))
  }

  /**
   * The products shown for a search term: exactly the matching ones, in
   * catalogue order; an empty term shows the whole catalogue.
   */
  function SearchProducts(ps: seq<Product>, term: string): (r: seq<Product>)
    ensures forall p :: p in r <==> p in ps && MatchesSearch(p, term)
    ensures forall p :: multiset(r)[p] == if MatchesSearch(p, term) then multiset(ps)[p] else 0
    ensures IsSubsequence(r, ps)
    ensures term == "" ==> r == ps
  {
    var keep := (p: Product) => MatchesSearch(p, term);
    assert term == "" ==> Filter(ps, keep) == ps by {
      if term == "" { FilterAll(ps, keep); }
    }
    Filter(ps, keep)
  }

  /** The search ignores case: terms that lower-case alike give the same list. */
  lemma SearchIgnoresCase(ps: seq<Product>, a: string, b: string)
    requires ToLower(a) == ToLower(b)
    ensures SearchProducts(ps, a) == SearchProducts(ps, b)
  {
    FilterCongruent(ps, (p: Product) => MatchesSearch(p, a), (p: Product) => MatchesSearch(p, b));
  }

  /** In particular, searching for the lower-cased term gives the same list. */
  lemma SearchLowerCasedTerm(ps: seq<Product>, term: string)
    ensures SearchProducts(ps, ToLower(term)) == SearchProducts(ps, term)
  {
    ToLowerIdempotent(term);
    SearchIgnoresCase(ps, ToLower(term), term);
  }

  /** The red "Sisa n" badge on a product card: shown below 20 units, so on every sold-out card too. */
  predicate ShowsLowStockBadge(p: Product)
    ensures ShowsLowStockBadge(p) <==> p.stock <= 19
    ensures p.stock <= 0 ==> ShowsLowStockBadge(p)
  {
    p.stock < 20
  }
}
