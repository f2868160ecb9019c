# Product Management service, modelled in Dafny

This project models the product service of a small catalog API. The service
sits over a product repository and offers five operations: list one page of
products, get a product by id, create a product from a request, partially
update a product, and delete a product by id. The partial update is a sparse
merge. Each of the eleven request fields overwrites the stored field only when
it is non-null. The conditional setter `updateIfNotNull` does this one field
at a time.

Files:

- `wrappers.dfy` (module `Wrappers`): `Option` stands for Java's null and `Optional`. `Result` stands for a thrown exception.
- `model.dfy` (module `Model`): the `Product` entity and the `ProductRequest` patch as datatypes.
  Every field is an `Option`. `Get` gives a field-indexed view of a request, used to state properties about all eleven fields.
- `app_utils.dfy` (module `AppUtils`): `UpdateIfNotNull`, the value a field holds after the conditional setter ran.
- `repository.dfy` (module `Repository`): `ProductStore`, an in-memory repository.
  It keeps a map from id to product, an insertion-ordered list of ids, an id counter, and a ghost log of every save and delete.
  It also defines `Page`/`Pageable` and the page slicing `PageOf`.
- `service.dfy` (module `Service`): `ProductService` over a `ProductStore`.
  The pure functions `FromRequest` and `Merge` specify what create and update save.
- `scenarios.dfy` (module `Scenarios`): client methods, most over a fresh store holding the sample product; `DeleteThenGet` takes any valid service.
  They mirror the unit tests and a partial-update example, and their outcomes follow from the contracts alone.

The store's ghost `writes` log makes the repository calls visible in the contracts.
Create performs exactly one save, of the product with the id unset.
Update performs no write when the id is missing, and otherwise exactly one save of the merged product.
Delete performs exactly one delete, whether or not the id was stored.

Types: `price` and `rating` are Java `Double`, kept as their IEEE 754 bit pattern (`Double(bits: bv64)`).
No arithmetic is done on them. `quantity` is a 32-bit `Int32` newtype and `shellId` a 64-bit `Int64` newtype.
The enum is `InventoryStatus` with `InStock`, `LowStock` and `OutOfStock`, named `INSTOCK`, `LOWSTOCK` and `OUTOFSTOCK` in the code.

The service's `getProductById` returns an empty `Optional` for a missing id; it does not raise not-found.
The 404 for a missing id on get is raised by the controller, which is not part of this model.

## Model

| member | source | states |
|---|---|---|
| `AppUtils.UpdateIfNotNull` | src/main/java/com/alten/product/management/utils/AppUtils.java:7-11 | a non-null value becomes the field's value; a null value leaves the field as it was |
| `AppUtils.UpdateIfNotNullIdempotent` | src/main/java/com/alten/product/management/utils/AppUtils.java:7-11 | setting the same value twice gives what setting it once gives |
| `AppUtils.UpdateIfNotNullNeverClears` | src/main/java/com/alten/product/management/utils/AppUtils.java:8-10 | a field holding a value still holds one afterwards |
| `Model.FieldsDetermineRequest` | src/main/java/com/alten/product/management/dto/ProductRequest.java:8-18 | two requests that agree on all eleven fields are equal |
| `Model.EmptyRequestIsAllNull` | src/main/java/com/alten/product/management/dto/ProductRequest.java:8-18 | `new ProductRequest()` is exactly the request whose every field is null |
| `Repository.PageOf` | src/main/java/com/alten/product/management/service/ProductService.java:23-25 | a page holds the elements from page index times size on, at most size of them, in order, with the total count of the collection |
| `Repository.PagesOfTwentyFive` | src/main/java/com/alten/product/management/controller/ProductController.java:24-30 | with 25 products and the default size 10, pages 0 and 1 hold 10, page 2 holds 5, page 3 none, and the total is 25 |
| `Repository.ProductStore.FindAll` | src/main/java/com/alten/product/management/service/ProductService.java:24 | the repository's page is the requested page of all stored products in listing order; its total is the number of stored products |
| `Repository.ProductStore.FindById` | src/main/java/com/alten/product/management/service/ProductService.java:28 | present exactly when the id is stored, and then the stored record, which carries that id |
| `Repository.ProductStore.Save` | src/main/java/com/alten/product/management/service/ProductService.java:44 | upsert: a product without id gets an unused id; one with an id replaces or inserts the record at that id; no other record changes; one save is logged |
| `Repository.ProductStore.DeleteById` | src/main/java/com/alten/product/management/service/ProductService.java:67 | the id is absent afterwards, every other record is unchanged, and no error is raised for an absent id |
| `Service.FromRequest` | src/main/java/com/alten/product/management/service/ProductService.java:32-43 | the new product has every request field verbatim, nulls included, and no id |
| `Service.FromRequestOfAttributes` | src/main/java/com/alten/product/management/service/ProductService.java:32-43 | building from a product's own fields gives that product back, when it has no id |
| `Service.Merge` | src/main/java/com/alten/product/management/service/ProductService.java:51-61 | for each of the eleven fields, the patch value when non-null and the stored value otherwise; the id is unchanged |
| `Service.MergeEmptyPatchIsIdentity` | src/main/java/com/alten/product/management/service/ProductService.java:51-63 | the all-null patch leaves the product unchanged |
| `Service.MergeNeverClears` | src/main/java/com/alten/product/management/service/ProductService.java:51-61 | no field holding a value can be set to null by an update |
| `Service.MergeIdempotent` | src/main/java/com/alten/product/management/service/ProductService.java:51-61 | applying the same patch twice gives what applying it once gives |
| `Service.MergeFullPatch` | src/main/java/com/alten/product/management/service/ProductService.java:51-61 | a patch setting every field replaces all eleven and keeps the id |
| `Service.ProductService.constructor` | src/main/java/com/alten/product/management/service/ProductService.java:19-21 | the service keeps the repository it is given |
| `Service.ProductService.GetAllProducts` | src/main/java/com/alten/product/management/service/ProductService.java:23-25 | returns exactly the repository's page, with nothing filtered or reordered, and changes nothing |
| `Service.ProductService.GetProductById` | src/main/java/com/alten/product/management/service/ProductService.java:27-29 | present iff the id is stored, then the stored product with that id; changes nothing |
| `Service.ProductService.CreateProduct` | src/main/java/com/alten/product/management/service/ProductService.java:31-45 | exactly one save, of the request's fields with the id unset; the result has a new id and the request's fields |
| `Service.ProductService.UpdateProduct` | src/main/java/com/alten/product/management/service/ProductService.java:47-64 | a missing id gives not-found ("Product not found") and no write; otherwise exactly one save of the merge at the same id, the other records untouched |
| `Service.ProductService.DeleteProduct` | src/main/java/com/alten/product/management/service/ProductService.java:66-68 | always exactly one delete and no error; afterwards the id is absent and the other records are unchanged |
| `Scenarios.ServiceWithSample` | src/test/java/com/alten/product/management/ProductManagementApplicationTests.java:36-51 | a fresh service whose store holds exactly the sample product, under id 1 |
| `Scenarios.ListOneProduct` | src/test/java/com/alten/product/management/ProductManagementApplicationTests.java:54-64 | listing a one-product store with page size 10 gives that product and a total of 1 |
| `Scenarios.GetPresentAndAbsent` | src/test/java/com/alten/product/management/ProductManagementApplicationTests.java:67-85 | id 1 gives the stored product; id 2 gives nothing |
| `Scenarios.CreateFromFullRequest` | src/test/java/com/alten/product/management/ProductManagementApplicationTests.java:88-104 | the created product has a new id and all eleven fields of the request, which sets every field |
| `Scenarios.UpdateEveryField` | src/test/java/com/alten/product/management/ProductManagementApplicationTests.java:122-151 | a patch setting every field gives a product whose eleven fields are exactly the patch's, and the id stays 1 |
| `Scenarios.UpdateCodeAndPrice` | src/main/java/com/alten/product/management/service/ProductService.java:51-63 | a code-and-price patch leaves the inventory status and the name untouched |
| `Scenarios.UpdateMissing` | src/test/java/com/alten/product/management/ProductManagementApplicationTests.java:157-165 | updating an id not stored fails with not-found |
| `Scenarios.DeleteThenGet` | src/main/java/com/alten/product/management/service/ProductService.java:66-68 | after a delete of any id, a fetch of that id gives nothing |

## Left out

- The HTTP controller (`ProductController.java`): the routing, the status codes 200, 201 and 204, and the 404 that `orElseThrow` raises for a missing id on get.
- Spring's `Pageable` parsing and the default page size: `Pageable` is a plain page index and page size supplied by the caller.
- The `Sort` a Spring `Pageable` carries and `Pageable.unpaged()`: the model has no sorted and no unpaged listing; pages are always cut from the insertion order.
- The JPA repository, its id generation strategy, transactions and last-write-wins under concurrent requests.
  `ProductStore` is an in-memory stand-in that lists records in insertion order, a store-defined order.
- Repository failures (connectivity, constraint violations) are not modelled; every store call succeeds.
- `Repository.ProductStore.DeleteById`: follows the never-raises behaviour of current Spring Data JPA for an absent id; older versions (2.x) throw `EmptyResultDataAccessException` there, and no build file fixes the version.
- The 64-bit width of ids: ids are unbounded integers, because id generation belongs to the store.
- `Double` semantics of `price` and `rating`: these values are only copied, so they are kept as bit patterns.
- `updateIfNotNull` takes a `Consumer` setter in the code. Here it is the value of the overwritten field, because every setter it is given overwrites one field.
- `UpdateProduct`: the code mutates the repository's own entity object through setters. The model copies the value and saves it, so the aliasing between the fetched entity and the stored record is not modelled.
