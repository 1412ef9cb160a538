// ProductService and CategoryService: creating products, merging partial
// updates into a stored product, decrementing stock, and creating and
// rewriting categories. The repositories' answers are parameters; `effects`
// holds what reached the store and the message bus, in order. The product
// repository stamps UpdatedAt on every UpdateAsync, before it writes; the
// event publisher swallows its own errors, so publishing never fails.

module ProductApplication {
  import opened Common
  import opened ProductDomain

  datatype CreateProductDto = CreateProductDto(
    name: string,
    description: string,
    category: string,
    price: real,
    stock: Int32,
    imageUrl: string)

  /** A partial update: a null string means "keep", and so does a price or stock that is not positive. */
  datatype UpdateProductDto = UpdateProductDto(
    name: Option<string>,
    description: Option<string>,
    category: Option<string>,
    price: real,
    stock: Int32,
    imageUrl: Option<string>)

  datatype CreateCategoryDto = CreateCategoryDto(name: string, description: string, imageUrl: string)

  datatype ProductEvent =
    | ProductCreatedEvent(productId: string, name: string, category: string, price: real, createdAt: Time)
    | ProductUpdatedEvent(productId: string, name: string, price: real, updatedAt: Time)
    | StockUpdatedEvent(productId: string, oldStock: Int32, newStock: Int32, updatedAt: Time)

  /** A document written to the product or category collection, or an event published. */
  datatype ProductEffect =
    | Inserted(product: ProductRecord)
    | Replaced(product: ProductRecord)
    | Published(event: ProductEvent)
    | CategoryInserted(category: CategoryRecord)
    | CategoryReplaced(category: CategoryRecord)

  function ProductNotFound(id: string): string
  {
    "Product " + id + " not found"
  }

  function CategoryNotFound(id: string): string
  {
    "Category " + id + " not found"
  }

  function Objects<T(==)>(lookup: Lookup<T>): set<T>
  {
    if lookup.Found? then {lookup.entity} else {}
  }

  function View(lookup: Lookup<Product>): Fetched<ProductRecord>
    reads Objects(lookup)
  {
    match lookup
    case LookupFailed => FetchFailed
    case Missing => NotStored
    case Found(p) => Fetched(p.Snapshot())
  }

  function CategoryView(lookup: Lookup<Category>): Fetched<CategoryRecord>
    reads Objects(lookup)
  {
    match lookup
    case LookupFailed => FetchFailed
    case Missing => NotStored
    case Found(c) => Fetched(c.Snapshot())
  }

  // ------------------------------------------------------------------ create

  /**
   * The product CreateProductAsync stores: the request's six fields, no
   * reviews, Available, the id the store assigned and both timestamps set
   * by the store.
   */
  function NewProduct(d: CreateProductDto, now: Time, id: string): ProductRecord
  {
    ProductRecord(id, d.name, d.description, d.category, d.price, d.stock, d.imageUrl, 0.0, 0, Available, now, now)
  }

  function CreateResult(d: CreateProductDto, now: Time, inserted: Result<string, Fault>): Result<ProductRecord, Fault>
  {
    match inserted
    case Ok(id) => Ok(NewProduct(d, now, id))
    case Err(f) => Err(f)
  }

  function CreateEffects(d: CreateProductDto, now: Time, inserted: Result<string, Fault>): seq<ProductEffect>
  {
    match inserted
    case Ok(id) =>
      var p := NewProduct(d, now, id);
      [Inserted(p), Published(ProductCreatedEvent(p.id, p.name, p.category, p.price, p.createdAt))]
    case Err(_) => []
  }

  /**
   * A created product carries the request's fields, no reviews and status
   * Available, and its mean-rating invariant holds from the start; the
   * single event published describes the stored product.
   */
  lemma CreateFacts(d: CreateProductDto, now: Time, id: string)
    ensures var p := CreateResult(d, now, Ok(id)).value;
      var e := CreateEffects(d, now, Ok(id));
      && p.id == id && p.name == d.name && p.description == d.description && p.category == d.category
      && p.price == d.price && p.stock == d.stock && p.imageUrl == d.imageUrl
      && p.reviewCount == 0 && p.rating == Mean([]) && p.status == Available
      && p.createdAt == now && p.updatedAt == now
      && e == [Inserted(p), Published(ProductCreatedEvent(id, d.name, d.category, d.price, now))]
  {
  }

  /** A failed insert returns the store's exception and neither writes nor publishes. */
  lemma CreateFailureSilent(d: CreateProductDto, now: Time, f: Fault)
    ensures CreateResult(d, now, Err(f)) == Err(f) && CreateEffects(d, now, Err(f)) == []
  {
  }

  // ------------------------------------------------------------------- merge

  /**
   * The merge of UpdateProductAsync: each string the request carries
   * replaces the stored one, a positive price or stock replaces the stored
   * one, and every other field is kept.
   */
  function Merge(p: ProductRecord, d: UpdateProductDto): (r: ProductRecord)
    ensures r.(name := p.name, description := p.description, category := p.category,
               price := p.price, stock := p.stock, imageUrl := p.imageUrl) == p
  {
    p.(name := OrElse(d.name, p.name),
       description := OrElse(d.description, p.description),
       category := OrElse(d.category, p.category),
       price := if d.price > 0.0 then d.price else p.price,
       stock := if d.stock > 0 then d.stock else p.stock,
       imageUrl := OrElse(d.imageUrl, p.imageUrl))
  }

  /** Each field the request carries wins; each it leaves out keeps its stored value. */
  lemma MergeFieldwise(p: ProductRecord, d: UpdateProductDto)
    ensures var r := Merge(p, d);
      && (d.name.Some? ==> r.name == d.name.value) && (d.name.None? ==> r.name == p.name)
      && (d.description.Some? ==> r.description == d.description.value) && (d.description.None? ==> r.description == p.description)
      && (d.category.Some? ==> r.category == d.category.value) && (d.category.None? ==> r.category == p.category)
      && (d.imageUrl.Some? ==> r.imageUrl == d.imageUrl.value) && (d.imageUrl.None? ==> r.imageUrl == p.imageUrl)
      && (d.price > 0.0 ==> r.price == d.price) && (d.price <= 0.0 ==> r.price == p.price)
      && (d.stock > 0 ==> r.stock == d.stock) && (d.stock <= 0 ==> r.stock == p.stock)
  {
  }

  /** An empty request (no strings, price and stock 0) leaves the product as it was. */
  lemma MergeNothingKeeps(p: ProductRecord)
    ensures Merge(p, UpdateProductDto(None, None, None, 0.0, 0, None)) == p
  {
  }

  /** Applying the same request twice is applying it once. */
  lemma MergeIdempotent(p: ProductRecord, d: UpdateProductDto)
    ensures Merge(Merge(p, d), d) == Merge(p, d)
  {
  }

  /** An update can never bring the stock to 0, nor make the price 0 unless it already was. */
  lemma MergeCannotZero(p: ProductRecord, d: UpdateProductDto)
    ensures Merge(p, d).stock == 0 ==> p.stock == 0
    ensures Merge(p, d).price == 0.0 ==> p.price == 0.0
    ensures p.stock > 0 ==> Merge(p, d).stock > 0
  {
  }

  // ------------------------------------------------------------------ update

  /** UpdateProductAsync's answer: KeyNotFound for a missing product, else the store's. */
  function UpdateResult(id: string, f: Fetched<ProductRecord>, replaced: Result<bool, Fault>): Result<bool, Fault>
  {
    match f
    case FetchFailed => Err(StoreFailure)
    case NotStored => Err(KeyNotFound(ProductNotFound(id)))
    case Fetched(_) => replaced
  }

  /** The merged product stamped by the store, as UpdateAsync writes it. */
  function Updated(p: ProductRecord, d: UpdateProductDto, now: Time): ProductRecord
  {
    Merge(p, d).(updatedAt := now)
  }

  function UpdateEffects(f: Fetched<ProductRecord>, d: UpdateProductDto, now: Time, replaced: Result<bool, Fault>): seq<ProductEffect>
  {
    if f.Fetched? && replaced == Ok(true) then
      var u := Updated(f.value, d, now);
      [Replaced(u), Published(ProductUpdatedEvent(u.id, u.name, u.price, u.updatedAt))]
    else []
  }

  /**
   * A missing product is KeyNotFound with nothing written; otherwise the
   * event goes out exactly when the store modified the document, and it
   * carries the merged name and price and the store's timestamp.
   */
  lemma UpdateFacts(id: string, f: Fetched<ProductRecord>, d: UpdateProductDto, now: Time, replaced: Result<bool, Fault>)
    ensures var r := UpdateResult(id, f, replaced);
      var e := UpdateEffects(f, d, now, replaced);
      && (f == NotStored ==> r == Err(KeyNotFound(ProductNotFound(id))) && e == [])
      && (e != [] <==> r == Ok(true))
      && (e != [] ==> e[1] == Published(ProductUpdatedEvent(f.value.id, Merge(f.value, d).name, Merge(f.value, d).price, now)))
  {
  }

  // --------------------------------------------------------------- decrement

  /**
   * DecrementStockAsync's answer: KeyNotFound for a missing product, the
   * entity's own exception for a refused quantity, else the store's.
   */
  function DecrementResult(id: string, f: Fetched<ProductRecord>, quantity: Int32, now: Time, replaced: Result<bool, Fault>): Result<bool, Fault>
  {
    match f
    case FetchFailed => Err(StoreFailure)
    case NotStored => Err(KeyNotFound(ProductNotFound(id)))
    case Fetched(p) =>
      match Decrement(p, quantity, now)
      case Err(e) => Err(e)
      case Ok(_) => replaced
  }

  function DecrementEffects(f: Fetched<ProductRecord>, quantity: Int32, now: Time, replaced: Result<bool, Fault>): seq<ProductEffect>
  {
    if f.Fetched? && Decrement(f.value, quantity, now).Ok? && replaced == Ok(true) then
      var q := Decrement(f.value, quantity, now).value.(updatedAt := now);
      [Replaced(q), Published(StockUpdatedEvent(q.id, f.value.stock, q.stock, q.updatedAt))]
    else []
  }

  /**
   * The stock event is sent exactly when the store took the decrement; its
   * OldStock is the stock read and NewStock that less the quantity, never
   * negative. A refused quantity writes nothing.
   */
  lemma StockEventFacts(id: string, f: Fetched<ProductRecord>, quantity: Int32, now: Time, replaced: Result<bool, Fault>)
    ensures var r := DecrementResult(id, f, quantity, now, replaced);
      var e := DecrementEffects(f, quantity, now, replaced);
      && (e != [] <==> r == Ok(true))
      && (f.Fetched? && quantity <= 0 ==> r == Err(InvalidArgument(QuantityNotPositive)) && e == [])
      && (f.Fetched? && 0 < quantity && f.value.stock < quantity ==> r == Err(InvalidOperation(InsufficientStock)) && e == [])
      && (e != [] ==> && e[1].event.StockUpdatedEvent?
                      && e[1].event.oldStock == f.value.stock
                      && e[1].event.newStock == f.value.stock - quantity
                      && e[1].event.newStock >= 0
                      && e[1].event.productId == f.value.id)
  {
  }

  // ---------------------------------------------------------------- category

  /** The category CreateCategoryAsync stores: the request's three fields, no products, the store's id and time. */
  function NewCategory(d: CreateCategoryDto, now: Time, id: string): CategoryRecord
  {
    CategoryRecord(id, d.name, d.description, d.imageUrl, 0, now)
  }

  /** UpdateCategoryAsync's rewrite: the three fields are overwritten, null or not. */
  function Rewrite(c: CategoryRecord, d: CreateCategoryDto): (r: CategoryRecord)
    ensures r.name == d.name && r.description == d.description && r.imageUrl == d.imageUrl
    ensures r.(name := c.name, description := c.description, imageUrl := c.imageUrl) == c
  {
    c.(name := d.name, description := d.description, imageUrl := d.imageUrl)
  }

  /**
   * Unlike a product update, a category rewrite keeps nothing of the old
   * name, description and image: two categories that agree elsewhere end up
   * equal.
   */
  lemma RewriteForgets(a: CategoryRecord, b: CategoryRecord, d: CreateCategoryDto)
    requires a.id == b.id && a.productCount == b.productCount && a.createdAt == b.createdAt
    ensures Rewrite(a, d) == Rewrite(b, d)
  {
  }

  /** A created category has no products, and a rewrite never changes the count. */
  lemma CategoryCountFacts(d: CreateCategoryDto, e: CreateCategoryDto, now: Time, id: string)
    ensures NewCategory(d, now, id).productCount == 0
    ensures Rewrite(NewCategory(d, now, id), e).productCount == 0
    ensures Rewrite(NewCategory(d, now, id), e) == NewCategory(e, now, id)
  {
  }

  function CategoryUpdateResult(id: string, f: Fetched<CategoryRecord>, replaced: Result<bool, Fault>): Result<bool, Fault>
  {
    match f
    case FetchFailed => Err(StoreFailure)
    case NotStored => Err(KeyNotFound(CategoryNotFound(id)))
    case Fetched(_) => replaced
  }

  // ---------------------------------------------------------------- services

  class ProductService {
    var effects: seq<ProductEffect>

    constructor ()
      ensures effects == []
    {
      effects := [];
    }

    /** CreateProductAsync. `inserted` is the id the store assigned, or its exception. */
    method CreateProduct(d: CreateProductDto, now: Time, inserted: Result<string, Fault>)
      returns (r: Result<ProductRecord, Fault>)
      modifies this
      ensures r == CreateResult(d, now, inserted)
      ensures effects == old(effects) + CreateEffects(d, now, inserted)
    {
      var product := new Product(ProductRecord("", d.name, d.description, d.category, d.price, d.stock, d.imageUrl,
                                               0.0, 0, Available, now, now));
      match inserted {
        case Err(f) =>
          r := Err(f);
        case Ok(id) =>
          product.id := id;
          product.createdAt := now;
          product.updatedAt := now;
          var created := product.Snapshot();
          effects := effects + [Inserted(created), Published(ProductCreatedEvent(created.id, created.name, created.category, created.price, created.createdAt))];
          r := Ok(created);
      }
    }

    /** GetProductByIdAsync: KeyNotFoundException for a missing product. */
    method GetProductById(id: string, lookup: Lookup<Product>) returns (r: Result<ProductRecord, Fault>)
      ensures View(lookup) == FetchFailed ==> r == Err(StoreFailure)
      ensures View(lookup) == NotStored ==> r == Err(KeyNotFound(ProductNotFound(id)))
      ensures View(lookup).Fetched? ==> r == Ok(View(lookup).value)
    {
      match lookup {
        case LookupFailed => r := Err(StoreFailure);
        case Missing => r := Err(KeyNotFound(ProductNotFound(id)));
        case Found(p) => r := Ok(p.Snapshot());
      }
    }

    /**
     * UpdateProductAsync: the request is merged into the fetched entity,
     * which the store stamps before it writes; `replaced` is what UpdateAsync
     * answered.
     */
    method UpdateProduct(id: string, d: UpdateProductDto, now: Time, lookup: Lookup<Product>, replaced: Result<bool, Fault>)
      returns (r: Result<bool, Fault>)
      modifies this, Objects(lookup)
      ensures r == UpdateResult(id, old(View(lookup)), replaced)
      ensures effects == old(effects) + UpdateEffects(old(View(lookup)), d, now, replaced)
      ensures lookup.Found? ==> lookup.entity.Snapshot() == Updated(old(lookup.entity.Snapshot()), d, now)
    {
      match lookup {
        case LookupFailed => r := Err(StoreFailure);
        case Missing => r := Err(KeyNotFound(ProductNotFound(id)));
        case Found(p) =>
          MergeInto(p, d);
          p.updatedAt := now;
          r := replaced;
          if replaced == Ok(true) {
            effects := effects + [Replaced(p.Snapshot()), Published(ProductUpdatedEvent(p.id, p.name, p.price, p.updatedAt))];
          }
      }
    }

    /** The six assignments of UpdateProductAsync that merge the request into the fetched entity. */
    static method MergeInto(p: Product, d: UpdateProductDto)
      modifies p
      ensures p.Snapshot() == Merge(old(p.Snapshot()), d)
    {
      p.name := OrElse(d.name, p.name);
      p.description := OrElse(d.description, p.description);
      p.category := OrElse(d.category, p.category);
      p.price := if d.price > 0.0 then d.price else p.price;
      p.stock := if d.stock > 0 then d.stock else p.stock;
      p.imageUrl := OrElse(d.imageUrl, p.imageUrl);
      assert p.Snapshot() == old(p.Snapshot()).(name := p.name, description := p.description, category := p.category,
                                                 price := p.price, stock := p.stock, imageUrl := p.imageUrl);
    }

    /**
     * DecrementStockAsync: the entity's DecrementStock runs first; a refused
     * quantity propagates its exception before anything is written.
     */
    method DecrementStock(id: string, quantity: Int32, now: Time, lookup: Lookup<Product>, replaced: Result<bool, Fault>)
      returns (r: Result<bool, Fault>)
      modifies this, Objects(lookup)
      ensures r == DecrementResult(id, old(View(lookup)), quantity, now, replaced)
      ensures effects == old(effects) + DecrementEffects(old(View(lookup)), quantity, now, replaced)
      ensures lookup.Found? && Decrement(old(lookup.entity.Snapshot()), quantity, now).Ok? ==>
        lookup.entity.Snapshot() == Decrement(old(lookup.entity.Snapshot()), quantity, now).value.(updatedAt := now)
      ensures lookup.Found? && Decrement(old(lookup.entity.Snapshot()), quantity, now).Err? ==>
        lookup.entity.Snapshot() == old(lookup.entity.Snapshot())
    {
      match lookup {
        case LookupFailed => r := Err(StoreFailure);
        case Missing => r := Err(KeyNotFound(ProductNotFound(id)));
        case Found(p) =>
          var oldStock := p.stock;
          var outcome := p.DecrementStock(quantity, now);
          if outcome.Err? {
            r := Err(outcome.error);
            return;
          }
          p.updatedAt := now;
          r := replaced;
          if replaced == Ok(true) {
            effects := effects + [Replaced(p.Snapshot()), Published(StockUpdatedEvent(p.id, oldStock, p.stock, p.updatedAt))];
          }
      }
    }
  }

  class CategoryService {
    var effects: seq<ProductEffect>

    constructor ()
      ensures effects == []
    {
      effects := [];
    }

    /** CreateCategoryAsync: ProductCount 0; the store assigns the id and CreatedAt. */
    method CreateCategory(d: CreateCategoryDto, now: Time, inserted: Result<string, Fault>)
      returns (r: Result<CategoryRecord, Fault>)
      modifies this
      ensures inserted.Ok? ==> r == Ok(NewCategory(d, now, inserted.value))
      ensures inserted.Ok? ==> effects == old(effects) + [CategoryInserted(NewCategory(d, now, inserted.value))]
      ensures inserted.Err? ==> r == Err(inserted.error) && effects == old(effects)
    {
      var category := new Category(CategoryRecord("", d.name, d.description, d.imageUrl, 0, now));
      match inserted {
        case Err(f) =>
          r := Err(f);
        case Ok(id) =>
          category.id := id;
          category.createdAt := now;
          var created := category.Snapshot();
          effects := effects + [CategoryInserted(created)];
          r := Ok(created);
      }
    }

    /** GetCategoryByIdAsync: KeyNotFoundException for a missing category. */
    method GetCategoryById(id: string, lookup: Lookup<Category>) returns (r: Result<CategoryRecord, Fault>)
      ensures CategoryView(lookup) == FetchFailed ==> r == Err(StoreFailure)
      ensures CategoryView(lookup) == NotStored ==> r == Err(KeyNotFound(CategoryNotFound(id)))
      ensures CategoryView(lookup).Fetched? ==> r == Ok(CategoryView(lookup).value)
    {
      match lookup {
        case LookupFailed => r := Err(StoreFailure);
        case Missing => r := Err(KeyNotFound(CategoryNotFound(id)));
        case Found(c) => r := Ok(c.Snapshot());
      }
    }

    /** UpdateCategoryAsync: the fetched category is rewritten and handed to the store, whose answer is returned. */
    method UpdateCategory(id: string, d: CreateCategoryDto, lookup: Lookup<Category>, replaced: Result<bool, Fault>)
      returns (r: Result<bool, Fault>)
      modifies this, Objects(lookup)
      ensures r == CategoryUpdateResult(id, old(CategoryView(lookup)), replaced)
      ensures lookup.Found? ==> lookup.entity.Snapshot() == Rewrite(old(lookup.entity.Snapshot()), d)
      ensures lookup.Found? && replaced == Ok(true) ==>
        effects == old(effects) + [CategoryReplaced(Rewrite(old(lookup.entity.Snapshot()), d))]
      ensures !(lookup.Found? && replaced == Ok(true)) ==> effects == old(effects)
    {
      match lookup {
        case LookupFailed => r := Err(StoreFailure);
        case Missing => r := Err(KeyNotFound(CategoryNotFound(id)));
        case Found(c) =>
          c.name := d.name;
          c.description := d.description;
          c.imageUrl := d.imageUrl;
          r := replaced;
          if replaced == Ok(true) {
            effects := effects + [CategoryReplaced(c.Snapshot())];
          }
      }
    }
  }
}
