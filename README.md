# Product catalogue repository — a Dafny model

This project models the core of a small NestJS catalogue backend. It covers four things:

- **`ProductsService`**, the product repository. It creates products, lists them through optional filters, looks one up by identifier, applies partial updates, deletes, and appends image filenames.
- **`DatabaseService`**, which holds the ordered `products` collection. It defaults the collection to empty and seeds five example products at startup when the collection is empty.
- **`CreateProductDto`**, the rules a creation payload must meet.
- **`SearchProductsDto`**, the optional query filters, including the string-to-boolean coercion of `inStock`.

Modules:

- `Wrappers`: `Option` and `Result`.
- `Text`: ASCII `toLowerCase` and `includes`.
- `Validation`: JSON values and validation errors.
- `CreateProduct`, `Database`, `SearchProducts` and `Products`: one per source file.

`DatabaseService` is a class with a `products: seq<Product>` field. `ProductsService` is a class holding its `DatabaseService`. Its mutating methods modify that store, and each method is one atomic step: the source never suspends between reading and writing the collection. Each method is stated against pure specification functions:

- `Search`, `FindOneIn`, `NewProduct`, `Merge`, `RemoveId` and `WithImages`.
- The lemmas that say what these functions mean: ordered filtering, uniqueness, round trips and preservation of distinct identifiers.

Three behaviours of the code shape the model:

- `create` in the service performs no validation and raises no invalid-input error. The validation pipe does that, so a valid payload is a precondition of `Create`.
- There is no store lock, and storage failures are not handled: a failing `.write()` throws after the in-memory collection has already changed.
- lodash `remove({ id })` drops every product with that identifier, while `find({ id })` (used by `findOne`, `update` and `addImages`) takes the first. `RemoveSingle` shows that with distinct identifiers this is the deletion of the one matching position.

## Model

| member | source | states |
|---|---|---|
| Text.ToLower | src/products/products.service.ts:34-45 | lower-casing keeps the length, maps each character by the ASCII rule, and leaves no upper-case letter |
| Text.ToLowerIdempotent | src/products/products.service.ts:45 | lower-casing twice equals lower-casing once: an already lower-cased term or category is unchanged by lower-casing it again |
| Text.Includes | src/products/products.service.ts:37-38 | `includes` scans the string from the left for the term; a term longer than the string is never included |
| Text.IncludesIffOccurs | src/products/products.service.ts:37-38 | `includes` holds exactly when the term occurs at some offset of the string |
| CreateProduct.Validate | src/products/dto/create-product.dto.ts:4-43 | a body is accepted iff all five properties are present and pass their rules (non-empty strings, number >= 0, boolean) and no other property is present; an accepted body yields a valid payload whose body is the input; a rejection names at least one property |
| CreateProduct.ValidateToBody | src/products/dto/create-product.dto.ts:9-43 | round trip: a valid payload sent as a body validates back to itself; an invalid one is rejected |
| CreateProduct.MissingPropertyRejected | src/products/dto/create-product.dto.ts:4-43 | a body missing any of the five required properties is rejected, naming that property |
| CreateProduct.UndeclaredPropertyRejected | src/main.ts:10-16 | with whitelist and forbidNonWhitelisted, a body carrying an undeclared property is rejected, naming it |
| Database.SampleProductsIds | src/database/database.service.ts:58-117 | the seed is exactly five products with ids "1".."5" in that order, pairwise distinct |
| Database.SampleProductsWellFormed | src/database/database.service.ts:59-115 | every seeded product has `images == []`, both timestamps equal to the seeding instant, and fields that satisfy the creation rules |
| Database.DatabaseService.constructor | src/database/database.service.ts:44-49 | the `products: []` default applies only when no list is stored; a stored list is kept |
| Database.DatabaseService.OnModuleInit | src/database/database.service.ts:51-56 | seeds only an empty collection, leaves a non-empty one untouched, and the collection is non-empty afterwards |
| Database.DatabaseService.InitializeData | src/database/database.service.ts:58-118 | replaces the collection by the five-product seed, with distinct ids |
| SearchProducts.CoerceInStock | src/products/dto/search-products.dto.ts:27 | the `@Transform` on inStock: only a string or a boolean can coerce to true |
| SearchProducts.CoerceInStockCases | src/products/dto/search-products.dto.ts:27 | the coercion gives true exactly for the string "true" and the boolean true; "false", "TRUE", "1" and false give false |
| SearchProducts.FromQuery | src/products/dto/search-products.dto.ts:5-46 | the query is accepted iff search and category are absent, null or strings; the inStock check never rejects after coercion; each absent filter stays absent, a present string search or category becomes that exact filter string, a present inStock is the coerced value, and the price bounds pass through |
| SearchProducts.EmptyQueryHasNoFilters | src/products/dto/search-products.dto.ts:10-45 | an empty query is accepted and sets no filter |
| Products.Filter | src/products/products.service.ts:35-58 | filtering keeps exactly the accepted products of the input and never lengthens it |
| Products.FilterConcat | src/products/products.service.ts:35-58 | filtering distributes over concatenation, so accepted products keep their relative order |
| Products.BySearch | src/products/products.service.ts:33-40 | with a non-empty term, keeps exactly the products whose lower-cased name or description contains the lower-cased term; an absent or empty term keeps everything |
| Products.ByCategory | src/products/products.service.ts:42-47 | with a non-empty category, keeps exactly the products whose category equals it after lower-casing both; an absent or empty category keeps everything |
| Products.ByStock | src/products/products.service.ts:49-51 | with inStock set, keeps exactly the products whose availability equals it |
| Products.ByMinPrice | src/products/products.service.ts:53-55 | with minPrice set, keeps exactly the products with price >= minPrice |
| Products.ByMaxPrice | src/products/products.service.ts:57-59 | with maxPrice set, keeps exactly the products with price <= maxPrice |
| Products.Search | src/products/products.service.ts:28-62 | a product is listed iff it is in the collection and satisfies every supplied filter (absent or empty filters impose nothing) |
| Products.SearchConcat | src/products/products.service.ts:28-62 | the listing of a concatenation is the concatenation of the listings (collection order is kept) |
| Products.SearchIsOrderedFilter | src/products/products.service.ts:28-62 | the chain of five conditional filters equals one ordered filter by the conjunction of all supplied filters |
| Products.SearchNoFilters | src/products/products.service.ts:28-62 | with no filter set the whole collection is returned |
| Products.IndexOf | src/products/products.service.ts:66 | finds the first position holding the id, and finds none iff no product has it |
| Products.FindOneIn | src/products/products.service.ts:64-73 | succeeds iff a product has the id, returning the first product of the collection with that id; otherwise fails with NotFound(id) |
| Products.FindOneUnique | src/products/products.service.ts:64-73 | with distinct ids, findOne returns the one product that carries the id |
| Products.NewProduct | src/products/products.service.ts:15-21 | the new record carries the given id and payload fields, no images, and createdAt == updatedAt == now |
| Products.AppendFresh | src/products/products.service.ts:12-25 | appending a product with a fresh id keeps ids distinct, and findOne then returns it |
| Products.Merge | src/products/products.service.ts:83-87 | partial merge: each present field overwrites, each absent field keeps its value; id, createdAt and images never change; updatedAt becomes now |
| Products.MergeProperties | src/products/products.service.ts:75-91 | an empty update only refreshes updatedAt, and applying one update twice is applying it once |
| Products.MergeKeepsValid | src/products/products.service.ts:83-87 | a product that meets the creation rules still meets them after an update whose present fields meet them |
| Products.RemoveId | src/products/products.service.ts:102 | removal leaves no product with the id, keeps exactly the other products, and keeps ids distinct |
| Products.RemoveSingle | src/products/products.service.ts:94-103 | with distinct ids, removal deletes exactly the one matching position and keeps the rest in order |
| Products.WithImages | src/products/products.service.ts:113-120 | the image list becomes the old list (empty if missing) followed by the new filenames; the payload fields, id and createdAt are unchanged; updatedAt becomes now |
| Products.WithImagesTwice | src/products/products.service.ts:105-124 | two attachments equal one attachment of both lists in order, with no deduplication |
| Products.ProductsService.constructor | src/products/products.service.ts:10 | the service works on the store it is given |
| Products.ProductsService.Create | src/products/products.service.ts:12-26 | the collection becomes the old one plus the new product at the end; the product meets the creation rules; with a fresh id, ids stay distinct and findOne returns the product |
| Products.ProductsService.FindAll | src/products/products.service.ts:28-62 | returns the ordered filter of the current collection by all supplied filters |
| Products.ProductsService.FindOne | src/products/products.service.ts:64-73 | returns the lookup of the id in the current collection |
| Products.ProductsService.Update | src/products/products.service.ts:75-92 | an absent id gives NotFound and changes nothing; otherwise the product at the first matching position is replaced by its merge, the rest and the length are unchanged, and the id sequence is unchanged |
| Products.ProductsService.Remove | src/products/products.service.ts:94-103 | an absent id gives NotFound and changes nothing; otherwise the matching products are removed in order; either way a later findOne fails with NotFound |
| Products.ProductsService.AddImages | src/products/products.service.ts:105-125 | an absent id gives NotFound and changes nothing; otherwise the product at the first matching position gets the filenames appended, and every other product and the id sequence are unchanged |

## Left out

- Persistence: the lowdb `FileSync` adapter, the JSON file on disk and every `.write()` call are file I/O in a foreign library. The store is the in-memory sequence. `getDatabase` and `writeDatabase` (src/database/database.service.ts:120-126) only hand out the handle or flush it, so they have no counterpart. A failing synchronous `.write()` (or a malformed file when the store opens) throws; that throw, and the in-memory change a failed write leaves behind, are not modelled.
- `uuidv4()` is the `id` parameter of `Create`. Its freshness is a hypothesis of the distinct-id guarantee, not a precondition.
- `new Date()` is the `now` parameter: one instant per operation. The source calls the clock separately for `createdAt` and `updatedAt`, and those two calls may differ by a tick.
- `String.prototype.toLowerCase` is modelled for ASCII letters only. Unicode case mapping is not modelled.
- Products.ProductsService.Create: requires a valid payload, which the validation pipe guarantees. The service itself would store any payload.
- SearchProducts.FromQuery: `minPrice` and `maxPrice` arrive as already-parsed reals. The `parseFloat` coercion is not modelled, and neither is the `NaN` it yields for malformed input (which would make every price comparison false and the listing empty). Undeclared query keys are not modelled either.
- Products.UpdateProductDto: src/products/dto/update-product.dto.ts is not part of this model. The update payload is a record with one optional field per creation property, as the pipe's whitelist allows. `ValidUpdate` assumes that present fields obey the creation rules, and only `MergeKeepsValid` depends on that assumption. The model does not capture present-but-undefined or null fields being copied by the spread.
- JSON arrays and objects as property values are not modelled: no rule of the core depends on them.
- The HTTP controller, the multer upload configuration (mime-type filter, 5 MB limit, generated filenames), image serving, the Swagger bootstrap and the client scripts are outside the core.
- Concurrency: the source has no lock. Each operation runs to completion without suspending, so it is modelled as one atomic method.
