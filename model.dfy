/** The product entity, the product request (the sparse patch) and a
    field-by-field view of both. */
module Model {
  import opened Wrappers

  /** Java `Integer` (the `quantity` field). */
  newtype Int32 = x: int | -0x8000_0000 <= x < 0x8000_0000

  /** Java `Long` (the `shellId` field). */
  newtype Int64 = x: int | -0x8000_0000_0000_0000 <= x < 0x8000_0000_0000_0000

  /** Java `Double` (the `price` and `rating` fields), kept as its IEEE 754
      bit pattern; the service only copies these values and never computes with them. */
  datatype Double = Double(bits: bv64)

  datatype InventoryStatus = InStock | LowStock | OutOfStock

  /** The surrogate key the store assigns. */
  type Id = int

  /** The request body of create and partial update: every field nullable. */
  datatype ProductRequest = ProductRequest(
    code: Option<string>,
    name: Option<string>,
    description: Option<string>,
    image: Option<string>,
    category: Option<string>,
    price: Option<Double>,
    quantity: Option<Int32>,
    internalReference: Option<string>,
    shellId: Option<Int64>,
    inventoryStatus: Option<InventoryStatus>,
    rating: Option<Double>)

  /** The persisted entity: the request's eleven fields plus the id, which is
      null until the store assigns one. */
  datatype Product = Product(
    id: Option<Id>,
    code: Option<string>,
    name: Option<string>,
    description: Option<string>,
    image: Option<string>,
    category: Option<string>,
    price: Option<Double>,
    quantity: Option<Int32>,
    internalReference: Option<string>,
    shellId: Option<Int64>,
    inventoryStatus: Option<InventoryStatus>,
    rating: Option<Double>)

  /** `new ProductRequest()`: every field null. */
  const EmptyRequest := ProductRequest(None, None, None, None, None, None, None, None, None, None, None)

  /** The eleven non-id fields of a product, in request shape. */
  function Attributes(p: Product): ProductRequest
  {
    ProductRequest(p.code, p.name, p.description, p.image, p.category, p.price,
                   p.quantity, p.internalReference, p.shellId, p.inventoryStatus, p.rating)
  }

  /** The eleven fields, for statements quantified over all of them. */
  datatype Field =
    | Code | Name | Description | Image | Category | Price
    | Quantity | InternalReference | ShellId | Status | Rating

  /** The value of one field, whatever its Java type. */
  datatype FieldValue =
    | Text(text: string)
    | Decimal(decimal: Double)
    | Count(count: Int32)
    | Ref(ref: Int64)
    | Stock(status: InventoryStatus)

  /** Field `f` of a request, `None` when it is null. */
  function Get(req: ProductRequest, f: Field): Option<FieldValue>
  {
    match f
    case Code => if req.code.Some? then Some(Text(req.code.value)) else None
    case Name => if req.name.Some? then Some(Text(req.name.value)) else None
    case Description => if req.description.Some? then Some(Text(req.description.value)) else None
    case Image => if req.image.Some? then Some(Text(req.image.value)) else None
    case Category => if req.category.Some? then Some(Text(req.category.value)) else None
    case Price => if req.price.Some? then Some(Decimal(req.price.value)) else None
    case Quantity => if req.quantity.Some? then Some(Count(req.quantity.value)) else None
    case InternalReference =>
      if req.internalReference.Some? then Some(Text(req.internalReference.value)) else None
    case ShellId => if req.shellId.Some? then Some(Ref(req.shellId.value)) else None
    case Status => if req.inventoryStatus.Some? then Some(Stock(req.inventoryStatus.value)) else None
    case Rating => if req.rating.Some? then Some(Decimal(req.rating.value)) else None
  }

  /** The field view loses nothing: two requests that agree on every field are equal. */
  lemma FieldsDetermineRequest(a: ProductRequest, b: ProductRequest)
    requires forall f :: Get(a, f) == Get(b, f)
    ensures a == b
  {
    assert Get(a, Code) == Get(b, Code);
    assert Get(a, Name) == Get(b, Name);
    assert Get(a, Description) == Get(b, Description);
    assert Get(a, Image) == Get(b, Image);
    assert Get(a, Category) == Get(b, Category);
    assert Get(a, Price) == Get(b, Price);
    assert Get(a, Quantity) == Get(b, Quantity);
    assert Get(a, InternalReference) == Get(b, InternalReference);
    assert Get(a, ShellId) == Get(b, ShellId);
    assert Get(a, Status) == Get(b, Status);
    assert Get(a, Rating) == Get(b, Rating);
  }

  /** The empty request is exactly the one with every field null. */
  lemma EmptyRequestIsAllNull(req: ProductRequest)
    ensures req == EmptyRequest <==> forall f :: Get(req, f).None?
  {
    if forall f :: Get(req, f).None? {
      FieldsDetermineRequest(req, EmptyRequest);
    }
  }
}
