/** Client code over a fresh store: the situations the unit tests set up,
    with what the contracts alone let a caller conclude. */
module Scenarios {
  import opened Wrappers
  import opened Model
  import opened Repository
  import opened Service

  const Price100 := Double(0x4059_0000_0000_0000)  // 100.0
  const Price150 := Double(0x4062_C000_0000_0000)  // 150.0
  const Price200 := Double(0x4069_0000_0000_0000)  // 200.0
  const Rating4 := Double(0x4010_0000_0000_0000)   // 4.0

  /** The product every test starts from, stored under id 1. */
  const Sample := Product(Some(1), Some("P001"), Some("Product 1"), Some("Description 1"),
                          Some("image_url_1"), Some("Category 1"), Some(Price100), Some(10),
                          Some("IR001"), Some(1), Some(InStock), Some(Rating4))

  /** A service over a store that holds `Sample` and nothing else. */
  method ServiceWithSample() returns (service: ProductService)
    ensures fresh(service) && fresh(service.productRepository) && service.Valid()
    ensures service.productRepository.products == map[1 := Sample]
    ensures service.productRepository.order == [1]
  {
    var store := new ProductStore();
    var _ := store.Save(Sample);
    service := new ProductService(store);
  }

  /** Listing a one-product store with page size 10 gives that product, total 1. */
  method ListOneProduct() returns (page: Page)
    ensures page.content == [Sample] && page.totalElements == 1
  {
    var service := ServiceWithSample();
    page := service.GetAllProducts(Pageable(0, 10));
    assert service.productRepository.Listing() == [Sample];
  }

  /** Fetching id 1 gives the stored product; fetching id 2 gives nothing. */
  method GetPresentAndAbsent() returns (present: Option<Product>, absent: Option<Product>)
    ensures present == Some(Sample)
    ensures absent == None
  {
    var service := ServiceWithSample();
    present := service.GetProductById(1);
    absent := service.GetProductById(2);
  }

  /** The request of the create test: every field set. */
  const FullRequest := ProductRequest(Some("P002"), Some("Product 2"), Some("Description 2"),
                                      Some("image_url_2"), Some("Category 2"), Some(Price200), Some(20),
                                      Some("IR002"), Some(1), Some(OutOfStock), Some(Rating4))

  /** The patch of the update test: every field set. */
  const FullPatch := ProductRequest(Some("P001-Updated"), Some("Updated Product"), Some("Updated Description"),
                                    Some("updated_image_url"), Some("Updated Category"), Some(Price150), Some(15),
                                    Some("IR001-Updated"), Some(2), Some(LowStock), Some(Rating4))

  /** Creating a product returns it with a fresh id and all eleven request fields. */
  method CreateFromFullRequest() returns (created: Product)
    ensures created.id.Some? && created.id.value != 1
    ensures Attributes(created) == FullRequest
    ensures created.code == Some("P002") && created.price == Some(Price200)
    ensures created.inventoryStatus == Some(OutOfStock)
  {
    var service := ServiceWithSample();
    created := service.CreateProduct(FullRequest);
  }

  /** A patch that sets every field replaces all eleven of them and keeps id 1. */
  method UpdateEveryField() returns (r: Result<Product, ServiceError>)
    ensures r.Success?
    ensures r.value.id == Some(1)
    ensures Attributes(r.value) == FullPatch
    ensures r.value.code == Some("P001-Updated") && r.value.price == Some(Price150)
    ensures r.value.shellId == Some(2) && r.value.inventoryStatus == Some(LowStock)
  {
    var service := ServiceWithSample();
    r := service.UpdateProduct(1, FullPatch);
  }

  /** A patch of code and price only leaves the other fields, the inventory
      status among them, as they were. */
  method UpdateCodeAndPrice() returns (r: Result<Product, ServiceError>)
    ensures r.Success?
    ensures r.value.code == Some("P001-Updated") && r.value.price == Some(Price150)
    ensures r.value.inventoryStatus == Some(InStock) && r.value.name == Some("Product 1")
  {
    var service := ServiceWithSample();
    r := service.UpdateProduct(1, EmptyRequest.(code := Some("P001-Updated"), price := Some(Price150)));
  }

  /** Updating an id the store does not hold fails with not-found. */
  method UpdateMissing() returns (r: Result<Product, ServiceError>)
    ensures r == Failure(ResourceNotFound("Product not found"))
  {
    var service := ServiceWithSample();
    r := service.UpdateProduct(999, EmptyRequest.(name := Some("x")));
  }

  /** After a delete, whether or not the id was stored, a fetch of it gives nothing. */
  method DeleteThenGet(service: ProductService, id: Id) returns (r: Option<Product>)
    requires service.Valid()
    modifies service.productRepository
    ensures r == None
  {
    service.DeleteProduct(id);
    r := service.GetProductById(id);
  }
}
