/** The product service: the business rules over the product repository. */
module Service {
  import opened Wrappers
  import opened Model
  import opened AppUtils
  import opened Repository

  /** `ResourceNotFoundException`, with its message. */
  datatype ServiceError = ResourceNotFound(message: string)

  const NotFoundMessage := "Product not found"

  /** The product `createProduct` builds before saving it: every request
      field copied as it is, nulls included, and the id left unset. */
  function FromRequest(req: ProductRequest): (p: Product)
    ensures p.id.None?
    ensures Attributes(p) == req
  {
    Product(None, req.code, req.name, req.description, req.image, req.category,
            req.price, req.quantity, req.internalReference, req.shellId,
            req.inventoryStatus, req.rating)
  }

  /** A product without id is determined by its fields: `FromRequest` inverts `Attributes`. */
  lemma FromRequestOfAttributes(p: Product)
    requires p.id.None?
    ensures FromRequest(Attributes(p)) == p
  {
  }

  /** The sparse merge of `updateProduct`: each of the eleven fields takes the
      patch value when that is non-null and keeps its current value otherwise;
      the id is never touched. */
  function Merge(current: Product, patch: ProductRequest): (r: Product)
    ensures r.id == current.id
    ensures forall f :: Get(Attributes(r), f) ==
                        if Get(patch, f).Some? then Get(patch, f) else Get(Attributes(current), f)
  {
    current.(
      code := UpdateIfNotNull(current.code, patch.code),
      name := UpdateIfNotNull(current.name, patch.name),
      description := UpdateIfNotNull(current.description, patch.description),
      image := UpdateIfNotNull(current.image, patch.image),
      category := UpdateIfNotNull(current.category, patch.category),
      price := UpdateIfNotNull(current.price, patch.price),
      quantity := UpdateIfNotNull(current.quantity, patch.quantity),
      internalReference := UpdateIfNotNull(current.internalReference, patch.internalReference),
      shellId := UpdateIfNotNull(current.shellId, patch.shellId),
      inventoryStatus := UpdateIfNotNull(current.inventoryStatus, patch.inventoryStatus),
      rating := UpdateIfNotNull(current.rating, patch.rating))
  }

  /** The all-null patch changes nothing. */
  lemma MergeEmptyPatchIsIdentity(p: Product)
    ensures Merge(p, EmptyRequest) == p
  {
  }

  /** No field that holds a value can be set to null through the merge. */
  lemma MergeNeverClears(p: Product, patch: ProductRequest, f: Field)
    requires Get(Attributes(p), f).Some?
    ensures Get(Attributes(Merge(p, patch)), f).Some?
  {
  }

  /** Applying the same patch twice gives the same product as applying it once. */
  lemma MergeIdempotent(p: Product, patch: ProductRequest)
    ensures Merge(Merge(p, patch), patch) == Merge(p, patch)
  {
  }

  /** A patch that sets every field replaces all eleven and keeps the id. */
  lemma MergeFullPatch(p: Product, patch: ProductRequest)
    requires forall f :: Get(patch, f).Some?
    ensures Attributes(Merge(p, patch)) == patch
    ensures Merge(p, patch).id == p.id
  {
    FieldsDetermineRequest(Attributes(Merge(p, patch)), patch);
  }

  /** The service that holds the repository it was given. */
  class ProductService {
    const productRepository: ProductStore

    ghost predicate Valid()
      reads this, productRepository
    {
      productRepository.Valid()
    }

    constructor (productRepository: ProductStore)
      ensures this.productRepository == productRepository
    {
      this.productRepository := productRepository;
    }

    /** `getAllProducts`: exactly the page the repository returns. */
    method GetAllProducts(pageable: Pageable) returns (page: Page)
      requires Valid()
      ensures page == PageOf(productRepository.Listing(), pageable)
      ensures page.totalElements == |productRepository.products|
    {
      page := productRepository.FindAll(pageable);
    }

    /** `getProductById`: the stored product with that id, or empty. */
    method GetProductById(id: Id) returns (r: Option<Product>)
      requires Valid()
      ensures r.Some? <==> id in productRepository.products
      ensures r.Some? ==> r.value == productRepository.products[id] && r.value.id == Some(id)
    {
      r := productRepository.FindById(id);
    }

    /** `createProduct`: one save of the request's fields with the id unset;
        the returned product has a new id and exactly the request's fields. */
    method CreateProduct(req: ProductRequest) returns (saved: Product)
      requires Valid()
      modifies productRepository
      ensures Valid()
      ensures productRepository.writes == old(productRepository.writes) + [Saved(FromRequest(req))]
      ensures saved.id.Some? && saved.id.value !in old(productRepository.products)
      ensures Attributes(saved) == req
      ensures productRepository.products == old(productRepository.products)[saved.id.value := saved]
      ensures productRepository.order == old(productRepository.order) + [saved.id.value]
    {
      var product := Product(None, None, None, None, None, None, None, None, None, None, None, None);
      product := product.(code := req.code);
      product := product.(name := req.name);
      product := product.(description := req.description);
      product := product.(image := req.image);
      product := product.(category := req.category);
      product := product.(price := req.price);
      product := product.(quantity := req.quantity);
      product := product.(internalReference := req.internalReference);
      product := product.(shellId := req.shellId);
      product := product.(inventoryStatus := req.inventoryStatus);
      product := product.(rating := req.rating);
      saved := productRepository.Save(product);
    }

    /** `updateProduct`: a missing id is a not-found error and nothing is
        written; otherwise the merged product is saved once, at the same id,
        and every other record is left as it was. */
    method UpdateProduct(id: Id, patch: ProductRequest) returns (r: Result<Product, ServiceError>)
      requires Valid()
      modifies productRepository
      ensures Valid()
      ensures id !in old(productRepository.products) ==>
                r == Failure(ResourceNotFound(NotFoundMessage)) && unchanged(productRepository)
      ensures id in old(productRepository.products) ==>
                && r == Success(Merge(old(productRepository.products[id]), patch))
                && r.value.id == Some(id)
                && productRepository.products == old(productRepository.products)[id := r.value]
                && productRepository.order == old(productRepository.order)
                && productRepository.nextId == old(productRepository.nextId)
                && productRepository.writes == old(productRepository.writes) + [Saved(r.value)]
    {
      var found := productRepository.FindById(id);
      if found.None? {
        return Failure(ResourceNotFound(NotFoundMessage));
      }
      var product := found.value;
      product := product.(code := UpdateIfNotNull(product.code, patch.code));
      product := product.(name := UpdateIfNotNull(product.name, patch.name));
      product := product.(description := UpdateIfNotNull(product.description, patch.description));
      product := product.(image := UpdateIfNotNull(product.image, patch.image));
      product := product.(category := UpdateIfNotNull(product.category, patch.category));
      product := product.(price := UpdateIfNotNull(product.price, patch.price));
      product := product.(quantity := UpdateIfNotNull(product.quantity, patch.quantity));
      product := product.(internalReference := UpdateIfNotNull(product.internalReference, patch.internalReference));
      product := product.(shellId := UpdateIfNotNull(product.shellId, patch.shellId));
      product := product.(inventoryStatus := UpdateIfNotNull(product.inventoryStatus, patch.inventoryStatus));
      product := product.(rating := UpdateIfNotNull(product.rating, patch.rating));
      var saved := productRepository.Save(product);
      r := Success(saved);
    }

    /** `deleteProduct`: always one delete, never an error, present id or not;
        afterwards the id is absent and every other record is as it was. */
    method DeleteProduct(id: Id)
      requires Valid()
      modifies productRepository
      ensures Valid()
      ensures productRepository.products == old(productRepository.products) - {id}
      ensures productRepository.order == Without(old(productRepository.order), id)
      ensures productRepository.nextId == old(productRepository.nextId)
      ensures productRepository.writes == old(productRepository.writes) + [Deleted(id)]
    {
      productRepository.DeleteById(id);
    }
  }
}
