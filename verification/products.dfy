/**
 * The product registry: records keyed by id, with the creation, field-merge
 * update and deletion rules of the product controller.
 */
module Products {
  import opened Results

  type ProductId = nat

  /** A stored product; `currentStock` is the cached scalar only stock validation changes. */
  datatype Product = Product(
    name: string,
    sku: string,
    category: string,
    unitOfMeasure: string,
    description: string,
    price: real,
    minStockLevel: int,
    currentStock: int)

  type ProductStore = map<ProductId, Product>

  /**
   * A request body. Each field is `None` when the body leaves it undefined;
   * `currentStock` stands for any field outside the seven the handlers read.
   */
  datatype ProductBody = ProductBody(
    name: Option<string>,
    sku: Option<string>,
    category: Option<string>,
    unitOfMeasure: Option<string>,
    description: Option<string>,
    price: Option<real>,
    minStockLevel: Option<int>,
    currentStock: Option<int>)

  datatype ProductError =
    | NotFound          // 404 "Product not found"
    | SkuExists         // 400 "Product with this SKU already exists"
    | MissingRequired   // 400 schema validation: a required field is absent or empty
    | DuplicateKey      // 400 unique-index violation on save

  /** JavaScript truthiness of a string field: undefined and "" are falsy. */
  predicate Truthy(v: Option<string>) {
    v.Some? && v.value != ""
  }

  /** `value || fallback` for a string field. */
  function OrElse(v: Option<string>, fallback: string): (r: string)
    ensures Truthy(v) ==> r == v.value
    ensures !Truthy(v) ==> r == fallback
  {
    if Truthy(v) then v.value else fallback
  }

  /** `value !== undefined ? value : fallback`. */
  function IfDefined<T>(v: Option<T>, fallback: T): T {
    match v
    case Some(x) => x
    case None => fallback
  }

  /** Some stored product carries `sku`. */
  predicate SkuTaken(store: ProductStore, sku: string) {
    exists id :: id in store && store[id].sku == sku
  }

  /**
   * `findOne({ sku })` finds a product. An undefined `sku` is sent as `null`,
   * which no stored product carries: the field is required.
   */
  predicate SkuQueryHits(store: ProductStore, sku: Option<string>) {
    match sku
    case None => false
    case Some(s) => SkuTaken(store, s)
  }

  /** The unique index on `sku`: no two products share one. */
  predicate UniqueSkus(store: ProductStore) {
    forall a, b :: a in store && b in store && a != b ==> store[a].sku != store[b].sku
  }

  /**
   * `createProduct`: reject a taken SKU, then the schema's required fields,
   * then an id already in use; otherwise store a product with stock 0.
   * `id` stands for the identifier the database generates.
   */
  function CreateProduct(store: ProductStore, id: ProductId, body: ProductBody): (r: Result<ProductStore, ProductError>)
    ensures r == Err(SkuExists) <==> SkuQueryHits(store, body.sku)
    ensures r == Err(MissingRequired) <==>
      && !SkuQueryHits(store, body.sku)
      && !(Truthy(body.name) && Truthy(body.sku) && Truthy(body.category) && Truthy(body.unitOfMeasure))
    ensures r.Ok? <==>
      && !SkuQueryHits(store, body.sku)
      && Truthy(body.name) && Truthy(body.sku) && Truthy(body.category) && Truthy(body.unitOfMeasure)
      && id !in store
    ensures r.Ok? ==>
      && r.value.Keys == store.Keys + {id}
      && (forall k :: k in store ==> r.value[k] == store[k])
      && r.value[id].currentStock == 0
      && r.value[id].name == body.name.value && r.value[id].sku == body.sku.value
      && r.value[id].category == body.category.value
      && r.value[id].unitOfMeasure == body.unitOfMeasure.value
      && r.value[id].description == OrElse(body.description, "")
      && r.value[id].price == IfDefined(body.price, 0.0)
      && r.value[id].minStockLevel == IfDefined(body.minStockLevel, 0)
  {
    if SkuQueryHits(store, body.sku) then Err(SkuExists)
    else if !(Truthy(body.name) && Truthy(body.sku) && Truthy(body.category) && Truthy(body.unitOfMeasure)) then
      Err(MissingRequired)
    else if id in store then Err(DuplicateKey)
    else
      var p := Product(body.name.value, body.sku.value, body.category.value, body.unitOfMeasure.value,
                       OrElse(body.description, ""), IfDefined(body.price, 0.0),
                       IfDefined(body.minStockLevel, 0), 0);
      Ok(store[id := p])
  }

  /** `getProduct`. */
  function GetProduct(store: ProductStore, id: ProductId): (r: Result<Product, ProductError>)
    ensures r.Ok? <==> id in store
    ensures r.Ok? ==> r.value == store[id]
    ensures r.Err? ==> r.error == NotFound
  {
    if id in store then Ok(store[id]) else Err(NotFound)
  }

  /** The record `updateProduct` saves: string fields by truthiness, numbers unless undefined, stock kept. */
  function Merge(p: Product, body: ProductBody): Product {
    Product(
      OrElse(body.name, p.name),
      OrElse(body.sku, p.sku),
      OrElse(body.category, p.category),
      OrElse(body.unitOfMeasure, p.unitOfMeasure),
      OrElse(body.description, p.description),
      IfDefined(body.price, p.price),
      IfDefined(body.minStockLevel, p.minStockLevel),
      p.currentStock)
  }

  /**
   * `updateProduct`: merge the body into the stored record; saving fails when
   * the merged SKU belongs to another product.
   */
  function UpdateProduct(store: ProductStore, id: ProductId, body: ProductBody): (r: Result<ProductStore, ProductError>)
    ensures r == Err(NotFound) <==> id !in store
    ensures r == Err(DuplicateKey) <==>
      id in store && exists k :: k in store && k != id && store[k].sku == OrElse(body.sku, store[id].sku)
    ensures r.Ok? <==>
      id in store && !exists k :: k in store && k != id && store[k].sku == OrElse(body.sku, store[id].sku)
    ensures r.Ok? ==>
      && r.value.Keys == store.Keys
      && (forall k :: k in store && k != id ==> r.value[k] == store[k])
      && var old_, new_ := store[id], r.value[id];
      && new_.currentStock == old_.currentStock
      && (Truthy(body.name) ==> new_.name == body.name.value)
      && (!Truthy(body.name) ==> new_.name == old_.name)
      && (Truthy(body.sku) ==> new_.sku == body.sku.value)
      && (!Truthy(body.sku) ==> new_.sku == old_.sku)
      && (Truthy(body.category) ==> new_.category == body.category.value)
      && (!Truthy(body.category) ==> new_.category == old_.category)
      && (Truthy(body.unitOfMeasure) ==> new_.unitOfMeasure == body.unitOfMeasure.value)
      && (!Truthy(body.unitOfMeasure) ==> new_.unitOfMeasure == old_.unitOfMeasure)
      && (Truthy(body.description) ==> new_.description == body.description.value)
      && (!Truthy(body.description) ==> new_.description == old_.description)
      && (body.price.Some? ==> new_.price == body.price.value)
      && (body.price.None? ==> new_.price == old_.price)
      && (body.minStockLevel.Some? ==> new_.minStockLevel == body.minStockLevel.value)
      && (body.minStockLevel.None? ==> new_.minStockLevel == old_.minStockLevel)
  {
    if id !in store then Err(NotFound)
    else
      var p := Merge(store[id], body);
      if exists k :: k in store && k != id && store[k].sku == p.sku then Err(DuplicateKey)
      else Ok(store[id := p])
  }

  /** `deleteProduct`. */
  function DeleteProduct(store: ProductStore, id: ProductId): (r: Result<ProductStore, ProductError>)
    ensures r.Ok? <==> id in store
    ensures r.Err? ==> r.error == NotFound
    ensures r.Ok? ==> r.value.Keys == store.Keys - {id}
    ensures r.Ok? ==> forall k :: k in r.value ==> r.value[k] == store[k]
  {
    if id in store then Ok(store - {id}) else Err(NotFound)
  }

  // ---------------------------------------------------------------------------
  // Properties
  // ---------------------------------------------------------------------------

  /** A zero price or threshold in the body overwrites the stored one; only an undefined one keeps it. */
  lemma ZeroOverwrites(store: ProductStore, id: ProductId, body: ProductBody)
    requires id in store && body.price == Some(0.0) && body.minStockLevel == Some(0)
    requires !exists k :: k in store && k != id && store[k].sku == OrElse(body.sku, store[id].sku)
    ensures UpdateProduct(store, id, body).Ok?
    ensures UpdateProduct(store, id, body).value[id].price == 0.0
    ensures UpdateProduct(store, id, body).value[id].minStockLevel == 0
  {
  }

  /** The outcome of an update does not depend on fields outside the seven the handler reads. */
  lemma UpdateIgnoresOtherFields(store: ProductStore, id: ProductId, body: ProductBody, stock: Option<int>)
    ensures UpdateProduct(store, id, body) == UpdateProduct(store, id, body.(currentStock := stock))
  {
  }

  /** Reading a product back right after creating it gives the body's fields, the defaults and stock 0. */
  lemma GetAfterCreate(store: ProductStore, id: ProductId, body: ProductBody)
    requires CreateProduct(store, id, body).Ok?
    ensures var after := CreateProduct(store, id, body).value;
      && GetProduct(after, id) == Ok(Product(body.name.value, body.sku.value, body.category.value,
                                           body.unitOfMeasure.value, OrElse(body.description, ""),
                                           IfDefined(body.price, 0.0), IfDefined(body.minStockLevel, 0), 0))
      && forall k :: k != id ==> GetProduct(after, k) == GetProduct(store, k)
  {
  }

  /** After a deletion the product is gone and every other product reads as before. */
  lemma GetAfterDelete(store: ProductStore, id: ProductId)
    requires DeleteProduct(store, id).Ok?
    ensures var after := DeleteProduct(store, id).value;
      && GetProduct(after, id) == Err(NotFound)
      && forall k :: k != id ==> GetProduct(after, k) == GetProduct(store, k)
  {
  }

  /** After an update the product reads as the merged record, with the same stock. */
  lemma GetAfterUpdate(store: ProductStore, id: ProductId, body: ProductBody)
    requires UpdateProduct(store, id, body).Ok?
    ensures var after := UpdateProduct(store, id, body).value;
      && GetProduct(after, id).Ok?
      && GetProduct(after, id).value.currentStock == GetProduct(store, id).value.currentStock
      && GetProduct(after, id).value.sku == OrElse(body.sku, GetProduct(store, id).value.sku)
      && forall k :: k != id ==> GetProduct(after, k) == GetProduct(store, k)
  {
  }

  /** Creation, update and deletion keep SKUs unique. */
  lemma UniqueSkusPreserved(store: ProductStore, id: ProductId, body: ProductBody)
    requires UniqueSkus(store)
    ensures CreateProduct(store, id, body).Ok? ==> UniqueSkus(CreateProduct(store, id, body).value)
    ensures UpdateProduct(store, id, body).Ok? ==> UniqueSkus(UpdateProduct(store, id, body).value)
    ensures DeleteProduct(store, id).Ok? ==> UniqueSkus(DeleteProduct(store, id).value)
  {
  }
}
