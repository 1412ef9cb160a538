// ContentBasedFilteringAlgorithm: the weighted category/price score of two
// products, and the same-category lookup it delegates to the repository.

module ContentBased {
  import opened Common
  import opened RecommendationDtos
  import opened RepositorySpec
  import opened Repository

  const CategoryWeight: real := 0.7
  const PriceWeight: real := 0.3
  const SimilarProductLimit: Int32 := 5

  function Abs(x: real): (r: real)
    ensures r >= 0.0 && (r == x || r == -x)
  {
    if x < 0.0 then -x else x
  }

  /** How CalculateProductSimilarity ends when it returns no score. */
  datatype SimilarityFault = NullReference   // the first category was null

  /** `category1.Equals(category2, StringComparison.OrdinalIgnoreCase)`: false against null. */
  predicate CategoryMatch(category1: string, category2: Option<string>)
  {
    category2.Some? && EqualsIgnoreCase(category1, category2.value)
  }

  /** 1 when the categories are equal ignoring case, 0 otherwise. */
  function CategoryScore(category1: string, category2: Option<string>): (r: real)
    ensures r == 1.0 <==> CategoryMatch(category1, category2)
    ensures r == 0.0 <==> !CategoryMatch(category1, category2)
  {
    if CategoryMatch(category1, category2) then 1.0 else 0.0
  }

  /**
   * 1 minus the price gap relative to the mean price, floored at 0; 0 when
   * the mean price is not positive.
   */
  function PriceScore(price1: real, price2: real): (r: real)
    ensures 0.0 <= r <= 1.0
    ensures (price1 + price2) / 2.0 <= 0.0 ==> r == 0.0
    ensures (price1 + price2) / 2.0 > 0.0 ==> (r == 1.0 <==> price1 == price2)
    ensures (price1 + price2) / 2.0 > 0.0 && Abs(price1 - price2) >= (price1 + price2) / 2.0 ==> r == 0.0
    ensures (price1 + price2) / 2.0 > 0.0 && Abs(price1 - price2) < (price1 + price2) / 2.0 ==>
      r == 1.0 - Abs(price1 - price2) / ((price1 + price2) / 2.0)
  {
    var difference := Abs(price1 - price2);
    var average := (price1 + price2) / 2.0;
    if average > 0.0 then
      RatioFacts(difference, average);
      1.0 - MinReal(difference / average, 1.0)
    else 0.0
  }

  /** A non-negative gap over a positive mean is a non-negative ratio, at least 1 once the gap reaches the mean. */
  lemma RatioFacts(difference: real, average: real)
    requires difference >= 0.0 && average > 0.0
    ensures difference / average >= 0.0
    ensures difference >= average ==> difference / average >= 1.0
    ensures difference / average == 0.0 <==> difference == 0.0
  {
    if difference >= average {
      assert difference / average * average == difference;
    }
  }

  /**
   * CalculateProductSimilarity: 0.7 for the category and 0.3 for the price.
   * The comparison is a call on the first category, so a null first
   * category raises NullReferenceException; a null second one only fails
   * to match.
   */
  function CalculateProductSimilarity(category1: Option<string>, category2: Option<string>, price1: real, price2: real): (r: Result<real, SimilarityFault>)
    ensures r.Err? <==> category1.None?
    ensures r.Ok? ==> 0.0 <= r.value <= 1.0
    ensures r.Ok? ==> (CategoryMatch(category1.value, category2) <==> r.value >= CategoryWeight)
    ensures r.Ok? && !CategoryMatch(category1.value, category2) ==> r.value <= PriceWeight
    ensures (r.Ok? && !CategoryMatch(category1.value, category2)
             && ((price1 + price2) / 2.0 <= 0.0 || Abs(price1 - price2) >= (price1 + price2) / 2.0)) ==> r.value == 0.0
  {
    if category1.None? then Err(NullReference)
    else Ok(CategoryWeight * CategoryScore(category1.value, category2) + PriceWeight * PriceScore(price1, price2))
  }

  lemma EqualsIgnoreCaseSymmetric(a: string, b: string)
    ensures EqualsIgnoreCase(a, b) <==> EqualsIgnoreCase(b, a)
  {
  }

  /** For two present categories, swapping both the categories and the prices gives the same score. */
  lemma ProductSimilaritySymmetric(category1: string, category2: string, price1: real, price2: real)
    ensures CalculateProductSimilarity(Some(category1), Some(category2), price1, price2)
         == CalculateProductSimilarity(Some(category2), Some(category1), price2, price1)
  {
    EqualsIgnoreCaseSymmetric(category1, category2);
    assert Abs(price1 - price2) == Abs(price2 - price1);
    assert price1 + price2 == price2 + price1;
  }

  /**
   * A null category is not symmetric: first, it raises; second, only the
   * price counts.
   */
  lemma NullCategoryAsymmetric(category: string, price1: real, price2: real)
    ensures CalculateProductSimilarity(None, Some(category), price1, price2) == Err(NullReference)
    ensures CalculateProductSimilarity(Some(category), None, price1, price2) == Ok(PriceWeight * PriceScore(price1, price2))
  {
  }

  /** The same category at the same positive price is a perfect match. */
  lemma SameCategoryAndPriceIsOne(category: string, price: real)
    requires price > 0.0
    ensures CalculateProductSimilarity(Some(category), Some(category), price, price) == Ok(1.0)
  {
    assert EqualsIgnoreCase(category, category);
  }

  /** Electronics against Books at 100 and 20: no category match and a price gap beyond the mean. */
  lemma DifferentCategoryFarPriceIsZero()
    ensures CalculateProductSimilarity(Some("Electronics"), Some("Books"), 100.0, 20.0) == Ok(0.0)
  {
    assert !EqualsIgnoreCase("Electronics", "Books");
    assert Abs(100.0 - 20.0) == 80.0;
    assert PriceScore(100.0, 20.0) == 0.0;
  }

  /** Categories differing only in letter case count as the same category. */
  lemma CategoryCaseIgnored()
    ensures CategoryScore("Electronics", Some("ELECTRONICS")) == 1.0
  {
    assert EqualsIgnoreCase("Electronics", "ELECTRONICS") by {
      var a := "Electronics";
      var b := "ELECTRONICS";
      assert forall i :: 0 <= i < |a| ==> FoldCase(a[i]) == FoldCase(b[i]);
    }
  }

  /** FindSimilarByCategoryAsync: the repository's same-category list, unchanged. */
  method FindSimilarByCategory(repo: RecommendationRepository, pid: string, limit: Int32 := SimilarProductLimit)
    returns (r: Result<seq<SimilarProduct>, Failure>)
    requires repo.Valid()
    modifies repo`log
    ensures var run := SimilarProductsCall(old(repo.Snapshot()), repo.faults, old(|repo.log|), pid, limit);
      r == run.result && repo.log == old(repo.log) + run.issued && repo.Snapshot() == run.after
  {
    r := repo.GetSimilarProducts(pid, limit);
  }
}
