// Recommendation.API data-transfer objects and the checks their validation
// attributes make before a controller action runs.

module RecommendationDtos {
  import opened Common

  /** A product suggested to a user. Name and category stay null when the graph has none. */
  datatype RecommendedProduct = RecommendedProduct(
    productId: string,
    name: Option<string>,
    category: Option<string>,
    price: real,
    imageUrl: string,
    rating: real,
    score: real,
    reason: string,
    confidence: real)

  datatype SimilarProduct = SimilarProduct(
    productId: string,
    name: Option<string>,
    category: Option<string>,
    price: real,
    similarityScore: real,
    reason: string)

  datatype TrendingProduct = TrendingProduct(
    productId: string,
    name: Option<string>,
    category: Option<string>,
    price: real,
    recentPurchases: nat,
    trendScore: real)

  datatype HistoryEntry = HistoryEntry(
    productId: string,
    name: string,
    category: string,
    purchaseDate: Time,
    quantity: int,
    price: real)

  /** One purchased line; also the argument of a recorded purchase. */
  datatype PurchaseItem = PurchaseItem(productId: string, quantity: Int32, price: real)

  datatype RecordViewDto = RecordViewDto(
    userId: Option<string>,
    productId: Option<string>,
    duration: Int32,
    source: Option<string>)

  datatype RecordPurchaseDto = RecordPurchaseDto(
    userId: Option<string>,
    orderId: Option<string>,
    items: Option<seq<PurchaseItem>>)

  const DefaultSource: string := "web"

  /** The object the JSON binder starts from before it reads any property. */
  function EmptyRecordViewDto(): (d: RecordViewDto)
    ensures d.duration == 0 && d.source == Some(DefaultSource)
    ensures !ValidRecordView(d)
  {
    RecordViewDto(Some(""), Some(""), 0, Some(DefaultSource))
  }

  /** `[Required][MinLength(1)]` on UserId and ProductId; Duration and Source are unchecked. */
  predicate ValidRecordView(d: RecordViewDto)
  {
    RequiredString(d.userId) && RequiredString(d.productId)
  }

  /** `[Required]` ProductId, Quantity in [1, int.MaxValue], Price in [0.01, double.MaxValue]. */
  predicate ValidPurchaseItem(i: PurchaseItem)
  {
    !IsBlank(i.productId) && 1 <= i.quantity && i.price >= 0.01
  }

  /**
   * `[Required]` UserId and OrderId, a present item list with at least one
   * element, and every element valid (model binding validates the elements too).
   */
  predicate ValidRecordPurchase(d: RecordPurchaseDto)
  {
    RequiredString(d.userId) && RequiredString(d.orderId)
    && d.items.Some? && |d.items.value| >= 1
    && forall i :: 0 <= i < |d.items.value| ==> ValidPurchaseItem(d.items.value[i])
  }

  /** An id of Unicode spaces alone is blank for `[Required]`, and one visible character is enough. */
  lemma WhiteSpaceIdsInvalid(productId: string, duration: Int32, source: Option<string>)
    ensures !ValidRecordView(RecordViewDto(Some("\U{3000}\U{2009}"), Some(productId), duration, source))
    ensures ValidRecordView(RecordViewDto(Some("\U{3000}u"), Some(productId), duration, source))
            <==> RequiredString(Some(productId))
  {
    var id := "\U{3000}u";
    assert id[1] == 'u' && !IsWhiteSpace(id[1]);
  }

  /** Validation depends only on the two ids; any duration and any source are accepted. */
  lemma ViewValidityIgnoresDurationAndSource(d: RecordViewDto, duration: Int32, source: Option<string>)
    ensures ValidRecordView(d) == ValidRecordView(d.(duration := duration, source := source))
  {
  }

  /**
   * A valid purchase records only positive quantities and positive prices,
   * and removing any item from a valid list of two or more keeps it valid.
   */
  lemma {:induction false} ValidPurchaseItemsPositive(d: RecordPurchaseDto, k: nat)
    requires ValidRecordPurchase(d) && k < |d.items.value|
    ensures d.items.value[k].quantity > 0 && d.items.value[k].price > 0.0
    ensures |d.items.value| >= 2 ==>
      ValidRecordPurchase(d.(items := Some(d.items.value[..k] + d.items.value[k+1..])))
  {
    var s := d.items.value;
    assert ValidPurchaseItem(s[k]);
    if |s| >= 2 {
      var t := s[..k] + s[k+1..];
      forall i | 0 <= i < |t| ensures ValidPurchaseItem(t[i]) {
        if i < k { assert t[i] == s[i]; } else { assert t[i] == s[i + 1]; }
      }
    }
  }
}
