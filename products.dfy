// Product.API domain: the Product entity and its three guarded state
// changes (stock, price, reviews). Each change is specified by a function
// on the entity's record; the class methods perform it in place.

module ProductDomain {
  import opened Common

  const Available: string := "Available"
  const OutOfStock: string := "OutOfStock"
  const MaxReviews: int := 0x7fff_ffff

  datatype ProductRecord = ProductRecord(
    id: string,
    name: string,
    description: string,
    category: string,
    price: real,
    stock: Int32,
    imageUrl: string,
    rating: real,
    reviewCount: Int32,
    status: string,
    createdAt: Time,
    updatedAt: Time)

  const QuantityNotPositive: string := "Quantity must be greater than 0"
  const InsufficientStock: string := "Insufficient stock"
  const NegativePrice: string := "Price cannot be negative"
  const RatingOutOfRange: string := "Rating must be between 0 and 5"

  // ------------------------------------------------------------------- stock

  /**
   * DecrementStock: a non-positive quantity and a quantity above the stock
   * are refused; otherwise the stock drops by the quantity and the product
   * is marked OutOfStock when nothing is left.
   */
  function Decrement(p: ProductRecord, quantity: Int32, now: Time): (r: Result<ProductRecord, Fault>)
    ensures quantity <= 0 ==> r == Err(InvalidArgument(QuantityNotPositive))
    ensures quantity > 0 && p.stock < quantity ==> r == Err(InvalidOperation(InsufficientStock))
    ensures r.Ok? <==> 0 < quantity <= p.stock
    ensures r.Ok? ==> && r.value.stock == p.stock - quantity
                      && 0 <= r.value.stock < p.stock
                      && r.value.updatedAt == now
                      && (r.value.stock == 0 ==> r.value.status == OutOfStock)
                      && (r.value.stock != 0 ==> r.value.status == p.status)
                      && r.value.(stock := p.stock, status := p.status, updatedAt := p.updatedAt) == p
  {
    if quantity <= 0 then Err(InvalidArgument(QuantityNotPositive))
    else if p.stock < quantity then Err(InvalidOperation(InsufficientStock))
    else
      var left := p.stock - quantity;
      Ok(p.(stock := left, updatedAt := now, status := if left == 0 then OutOfStock else p.status))
  }

  /** Two decrements that both go through leave the same product as one decrement by their sum. */
  lemma DecrementTwice(p: ProductRecord, a: Int32, b: Int32, now: Time, later: Time)
    requires Decrement(p, a, now).Ok? && Decrement(Decrement(p, a, now).value, b, later).Ok?
    ensures a as int + b as int <= p.stock
    ensures Decrement(p, (a + b) as Int32, later) == Decrement(Decrement(p, a, now).value, b, later)
  {
  }

  /** Stock 10 less 5 leaves 5, still available. */
  lemma DecrementExample(p: ProductRecord, now: Time)
    requires p.stock == 10 && p.status == Available
    ensures Decrement(p, 5, now).Ok? && Decrement(p, 5, now).value.stock == 5
    ensures Decrement(p, 5, now).value.status == Available
  {
  }

  // ------------------------------------------------------------------- price

  /** UpdatePrice: any non-negative price is taken; a negative one is refused. */
  function Reprice(p: ProductRecord, newPrice: real, now: Time): (r: Result<ProductRecord, Fault>)
    ensures r.Ok? <==> newPrice >= 0.0
    ensures r.Err? ==> r.error == InvalidArgument(NegativePrice)
    ensures r.Ok? ==> r.value.price == newPrice && r.value.updatedAt == now
                      && r.value.(price := p.price, updatedAt := p.updatedAt) == p
  {
    if newPrice < 0.0 then Err(InvalidArgument(NegativePrice))
    else Ok(p.(price := newPrice, updatedAt := now))
  }

  // ----------------------------------------------------------------- reviews

  /**
   * AddReview: a rating outside [0, 5] is refused; otherwise the count goes
   * up by one (C# `int`, unchecked) and the rating becomes
   * (rating * oldCount + new) / newCount. A count of -1 would divide by zero.
   */
  function Review(p: ProductRecord, rating: real, now: Time): (r: Result<ProductRecord, Fault>)
    requires p.reviewCount != -1
    ensures r.Ok? <==> 0.0 <= rating <= 5.0
    ensures r.Err? ==> r.error == InvalidArgument(RatingOutOfRange)
    ensures r.Ok? ==> r.value.reviewCount == Wrap32(p.reviewCount as int + 1) && r.value.updatedAt == now
                      && r.value.(rating := p.rating, reviewCount := p.reviewCount, updatedAt := p.updatedAt) == p
  {
    if rating < 0.0 || rating > 5.0 then Err(InvalidArgument(RatingOutOfRange))
    else
      var count := Wrap32(p.reviewCount as int + 1);
      Ok(p.(reviewCount := count, rating := FoldRating(p.rating, p.reviewCount, count, rating), updatedAt := now))
  }

  /** `(Rating * oldCount + rating) / newCount`: the running rating after one more review. */
  function FoldRating(mean: real, oldCount: int, newCount: int, r: real): real
    requires newCount != 0
  {
    (mean * oldCount as real + r) / newCount as real
  }

  function Sum(s: seq<real>): real
  {
    if s == [] then 0.0 else Sum(s[..|s| - 1]) + s[|s| - 1]
  }

  /** The mean of the ratings received; 0 before the first. */
  function Mean(s: seq<real>): real
  {
    if s == [] then 0.0 else Sum(s) / |s| as real
  }

  /** A product whose rating is the mean of the reviews so far keeps that invariant through AddReview. */
  lemma ReviewKeepsMean(p: ProductRecord, ratings: seq<real>, rating: real, now: Time)
    requires p.reviewCount as int == |ratings| < MaxReviews && p.rating == Mean(ratings)
    requires 0.0 <= rating <= 5.0
    ensures Review(p, rating, now).Ok?
    ensures Review(p, rating, now).value.reviewCount as int == |ratings + [rating]|
    ensures Review(p, rating, now).value.rating == Mean(ratings + [rating])
  {
    var s := ratings + [rating];
    assert s[..|s| - 1] == ratings;
    var k: nat := |ratings|;
    assert Wrap32(p.reviewCount as int + 1) == k + 1;
    MeanStep(Sum(ratings), p.rating, k, rating);
    assert Sum(s) == Sum(ratings) + rating;
  }

  /** Folding one more value into a mean of k values: (mean * k + r) / (k + 1) is the new mean. */
  lemma MeanStep(total: real, mean: real, k: nat, r: real)
    requires k == 0 ==> total == 0.0 && mean == 0.0
    requires k > 0 ==> mean == total / k as real
    ensures FoldRating(mean, k, k + 1, r) == (total + r) / (k + 1) as real
  {
    if k > 0 {
      DivideTimes(total, k as real);
    }
  }

  /** A rating in [0, 5] stays in [0, 5] through AddReview. */
  lemma ReviewStaysInRange(p: ProductRecord, rating: real, now: Time)
    requires 0 <= p.reviewCount as int < MaxReviews && 0.0 <= p.rating <= 5.0
    requires 0.0 <= rating <= 5.0
    ensures 0.0 <= Review(p, rating, now).value.rating <= 5.0
  {
    var k: nat := p.reviewCount as int;
    assert Wrap32(p.reviewCount as int + 1) == k + 1;
    RangeStep(p.rating, k, rating);
  }

  /** A mean of values in [0, 5] folded with one more such value stays in [0, 5]. */
  lemma RangeStep(mean: real, k: nat, r: real)
    requires 0.0 <= mean <= 5.0 && 0.0 <= r <= 5.0
    ensures 0.0 <= FoldRating(mean, k, k + 1, r) <= 5.0
  {
    var n := k as real;
    var m := (k + 1) as real;
    assert m == n + 1.0;
    TimesBound(mean, n, 5.0);
    AddBound(mean * n, n, r, m);
    DivideBound(mean * n + r, m, 5.0);
  }

  lemma AddBound(x: real, n: real, r: real, m: real)
    requires 0.0 <= x <= 5.0 * n && 0.0 <= r <= 5.0 && m == n + 1.0
    ensures 0.0 <= x + r <= 5.0 * m
  {
  }

  /** The reviews `rs` added one after another, oldest first. */
  function ReviewAll(p: ProductRecord, rs: seq<real>, now: Time): (r: Result<ProductRecord, Fault>)
    requires 0 <= p.reviewCount as int && p.reviewCount as int + |rs| < MaxReviews
    ensures r.Ok? ==> r.value.reviewCount as int == p.reviewCount as int + |rs|
    decreases |rs|
  {
    if rs == [] then Ok(p)
    else
      match ReviewAll(p, rs[..|rs| - 1], now)
      case Err(e) => Err(e)
      case Ok(q) => Review(q, rs[|rs| - 1], now)
  }

  /**
   * Starting from no reviews, any run of ratings in [0, 5] is accepted and
   * leaves Rating at their mean and ReviewCount at their number.
   */
  lemma {:induction false} ReviewsAverage(p: ProductRecord, rs: seq<real>, now: Time)
    requires p.reviewCount == 0 && p.rating == 0.0 && |rs| < MaxReviews
    requires forall i :: 0 <= i < |rs| ==> 0.0 <= rs[i] <= 5.0
    ensures ReviewAll(p, rs, now).Ok?
    ensures ReviewAll(p, rs, now).value.reviewCount as int == |rs|
    ensures ReviewAll(p, rs, now).value.rating == Mean(rs)
  {
    if rs != [] {
      var init := rs[..|rs| - 1];
      ReviewsAverage(p, init, now);
      var q := ReviewAll(p, init, now).value;
      ReviewKeepsMean(q, init, rs[|rs| - 1], now);
      assert init + [rs[|rs| - 1]] == rs;
    }
  }

  lemma DivideTimes(x: real, n: real)
    requires n > 0.0
    ensures x / n * n == x
  {
  }

  lemma TimesBound(a: real, n: real, c: real)
    requires 0.0 <= a <= c && n >= 0.0
    ensures 0.0 <= a * n <= c * n
  {
    assert (c - a) * n >= 0.0;
  }

  lemma DivideBound(x: real, m: real, c: real)
    requires m > 0.0 && 0.0 <= x <= c * m
    ensures 0.0 <= x / m <= c
  {
    assert x / m * m == x;
  }

  // -------------------------------------------------------------- the entity

  class Product {
    var id: string
    var name: string
    var description: string
    var category: string
    var price: real
    var stock: Int32
    var imageUrl: string
    var rating: real
    var reviewCount: Int32
    var status: string
    var createdAt: Time
    var updatedAt: Time

    constructor (r: ProductRecord)
      ensures Snapshot() == r
    {
      id := r.id;
      name := r.name;
      description := r.description;
      category := r.category;
      price := r.price;
      stock := r.stock;
      imageUrl := r.imageUrl;
      rating := r.rating;
      reviewCount := r.reviewCount;
      status := r.status;
      createdAt := r.createdAt;
      updatedAt := r.updatedAt;
    }

    function Snapshot(): ProductRecord
      reads this
    {
      ProductRecord(id, name, description, category, price, stock, imageUrl, rating, reviewCount,
                    status, createdAt, updatedAt)
    }

    /** DecrementStock: the product becomes Decrement's result; on an exception it is untouched. */
    method DecrementStock(quantity: Int32, now: Time) returns (r: Result<(), Fault>)
      modifies this
      ensures var d := Decrement(old(Snapshot()), quantity, now);
        && (d.Ok? ==> r == Ok(()) && Snapshot() == d.value)
        && (d.Err? ==> r == Err(d.error) && Snapshot() == old(Snapshot()))
    {
      if quantity <= 0 {
        return Err(InvalidArgument(QuantityNotPositive));
      }
      if stock < quantity {
        return Err(InvalidOperation(InsufficientStock));
      }
      stock := stock - quantity;
      updatedAt := now;
      if stock == 0 {
        status := OutOfStock;
      }
      r := Ok(());
    }

    /** UpdatePrice. */
    method UpdatePrice(newPrice: real, now: Time) returns (r: Result<(), Fault>)
      modifies this
      ensures var u := Reprice(old(Snapshot()), newPrice, now);
        && (u.Ok? ==> r == Ok(()) && Snapshot() == u.value)
        && (u.Err? ==> r == Err(u.error) && Snapshot() == old(Snapshot()))
    {
      if newPrice < 0.0 {
        return Err(InvalidArgument(NegativePrice));
      }
      price := newPrice;
      updatedAt := now;
      r := Ok(());
    }

    /** AddReview. */
    method AddReview(newRating: real, now: Time) returns (r: Result<(), Fault>)
      requires reviewCount != -1
      modifies this
      ensures var u := Review(old(Snapshot()), newRating, now);
        && (u.Ok? ==> r == Ok(()) && Snapshot() == u.value)
        && (u.Err? ==> r == Err(u.error) && Snapshot() == old(Snapshot()))
    {
      if newRating < 0.0 || newRating > 5.0 {
        return Err(InvalidArgument(RatingOutOfRange));
      }
      var count := Wrap32(reviewCount as int + 1);
      rating := FoldRating(rating, reviewCount as int, count as int, newRating);
      reviewCount := count;
      updatedAt := now;
      r := Ok(());
    }
  }

  // ---------------------------------------------------------------- category

  datatype CategoryRecord = CategoryRecord(
    id: string,
    name: string,
    description: string,
    imageUrl: string,
    productCount: Int32,
    createdAt: Time)

  /** The Category entity, whose fields CategoryService overwrites in place. */
  class Category {
    var id: string
    var name: string
    var description: string
    var imageUrl: string
    var productCount: Int32
    var createdAt: Time

    constructor (r: CategoryRecord)
      ensures Snapshot() == r
    {
      id := r.id;
      name := r.name;
      description := r.description;
      imageUrl := r.imageUrl;
      productCount := r.productCount;
      createdAt := r.createdAt;
    }

    function Snapshot(): CategoryRecord
      reads this
    {
      CategoryRecord(id, name, description, imageUrl, productCount, createdAt)
    }
  }
}
