/** The product repository (`ProductsService`): creation, the filtered listing,
    lookup, partial update, deletion and image attachment over the collection
    held by `DatabaseService`. Each operation reads, computes and writes with
    no suspension in between, so each is one atomic step here. */
module Products {
  import opened Wrappers
  import opened Text
  import opened Database
  import opened CreateProduct
  import opened SearchProducts

  /** `NotFoundException` for a product identifier. */
  datatype Error = NotFound(id: string)

  /** A partial update: each create property, present or absent. The
      whitelist of the validation pipe keeps any other key out of it. */
  datatype UpdateProductDto = UpdateProductDto(
    name: Option<string>,
    description: Option<string>,
    price: Option<real>,
    category: Option<string>,
    inStock: Option<bool>)

  // ---------------------------------------------------------------------
  // Ordered filtering (`Array.prototype.filter`)
  // ---------------------------------------------------------------------

  /** The products of `s` that `keep` accepts, in their original order. */
  function Filter(s: seq<Product>, keep: Product -> bool): (r: seq<Product>)
    ensures |r| <= |s|
    ensures forall p :: p in r <==> p in s && keep(p)
  {
    if s == [] then [] else (if keep(s[0]) then [s[0]] else []) + Filter(s[1..], keep)
  }

  /** Filtering distributes over concatenation: kept products keep their
      relative order. */
  lemma {:induction false} FilterConcat(a: seq<Product>, b: seq<Product>, keep: Product -> bool)
    ensures Filter(a + b, keep) == Filter(a, keep) + Filter(b, keep)
  {
    if a == [] {
      assert a + b == b;
    } else {
      assert (a + b)[1..] == a[1..] + b;
      FilterConcat(a[1..], b, keep);
    }
  }

  /** A filter that accepts every product of `s` returns `s` itself. */
  lemma {:induction false} FilterKeepsAll(s: seq<Product>, keep: Product -> bool)
    requires forall k :: 0 <= k < |s| ==> keep(s[k])
    ensures Filter(s, keep) == s
  {
    if s != [] {
      FilterKeepsAll(s[1..], keep);
    }
  }

  // ---------------------------------------------------------------------
  // findAll
  // ---------------------------------------------------------------------

  /** The search filter for an already lower-cased term: the term occurs in
      the lower-cased name or the lower-cased description. */
  predicate MatchesSearch(p: Product, term: string) {
    Includes(ToLower(p.name), term) || Includes(ToLower(p.description), term)
  }

  /** The category filter: equal after lower-casing both sides. */
  predicate MatchesCategory(p: Product, category: string) {
    ToLower(p.category) == ToLower(category)
  }

  function SearchFilter(term: string): Product -> bool { (p: Product) => MatchesSearch(p, term) }
  function CategoryFilter(category: string): Product -> bool { (p: Product) => MatchesCategory(p, category) }
  function StockFilter(inStock: bool): Product -> bool { (p: Product) => p.inStock == inStock }
  function MinPriceFilter(minPrice: real): Product -> bool { (p: Product) => p.price >= minPrice }
  function MaxPriceFilter(maxPrice: real): Product -> bool { (p: Product) => p.price <= maxPrice }

  // Each filter of the query, as a condition on one product. An absent
  // filter, and an empty search term or category (falsy in the source),
  // constrains nothing.
  predicate PassesSearch(q: SearchProductsDto, p: Product) {
    q.search.None? || q.search.value == [] || MatchesSearch(p, ToLower(q.search.value))
  }
  predicate PassesCategory(q: SearchProductsDto, p: Product) {
    q.category.None? || q.category.value == [] || MatchesCategory(p, q.category.value)
  }
  predicate PassesStock(q: SearchProductsDto, p: Product) {
    q.inStock.None? || p.inStock == q.inStock.value
  }
  predicate PassesMinPrice(q: SearchProductsDto, p: Product) {
    q.minPrice.None? || p.price >= q.minPrice.value
  }
  predicate PassesMaxPrice(q: SearchProductsDto, p: Product) {
    q.maxPrice.None? || p.price <= q.maxPrice.value
  }

  /** `p` satisfies every filter the query supplies. */
  predicate Matches(q: SearchProductsDto, p: Product) {
    PassesSearch(q, p) && PassesCategory(q, p) && PassesStock(q, p) &&
    PassesMinPrice(q, p) && PassesMaxPrice(q, p)
  }

  function MatchFilter(q: SearchProductsDto): Product -> bool { (p: Product) => Matches(q, p) }

  // The five steps of `findAll`, each filtering only when its field is set.
  function BySearch(s: seq<Product>, q: SearchProductsDto): (r: seq<Product>)
    ensures forall p :: p in r <==> p in s && PassesSearch(q, p)
  {
    if q.search.Some? && q.search.value != [] then Filter(s, SearchFilter(ToLower(q.search.value))) else s
  }
  function ByCategory(s: seq<Product>, q: SearchProductsDto): (r: seq<Product>)
    ensures forall p :: p in r <==> p in s && PassesCategory(q, p)
  {
    if q.category.Some? && q.category.value != [] then Filter(s, CategoryFilter(q.category.value)) else s
  }
  function ByStock(s: seq<Product>, q: SearchProductsDto): (r: seq<Product>)
    ensures forall p :: p in r <==> p in s && PassesStock(q, p)
  {
    if q.inStock.Some? then Filter(s, StockFilter(q.inStock.value)) else s
  }
  function ByMinPrice(s: seq<Product>, q: SearchProductsDto): (r: seq<Product>)
    ensures forall p :: p in r <==> p in s && PassesMinPrice(q, p)
  {
    if q.minPrice.Some? then Filter(s, MinPriceFilter(q.minPrice.value)) else s
  }
  function ByMaxPrice(s: seq<Product>, q: SearchProductsDto): (r: seq<Product>)
    ensures forall p :: p in r <==> p in s && PassesMaxPrice(q, p)
  {
    if q.maxPrice.Some? then Filter(s, MaxPriceFilter(q.maxPrice.value)) else s
  }

  /** `findAll`: the five filters applied one after the other. */
  function Search(products: seq<Product>, q: SearchProductsDto): (r: seq<Product>)
    ensures forall p :: p in r <==> p in products && Matches(q, p)
  {
    ByMaxPrice(ByMinPrice(ByStock(ByCategory(BySearch(products, q), q), q), q), q)
  }

  /** The listing of a concatenation is the concatenation of the listings:
      matching products stay in collection order. */
  lemma {:induction false} SearchConcat(a: seq<Product>, b: seq<Product>, q: SearchProductsDto)
    ensures Search(a + b, q) == Search(a, q) + Search(b, q)
  {
    var a1, b1 := a, b;
    if q.search.Some? && q.search.value != [] {
      FilterConcat(a1, b1, SearchFilter(ToLower(q.search.value)));
      a1, b1 := Filter(a1, SearchFilter(ToLower(q.search.value))), Filter(b1, SearchFilter(ToLower(q.search.value)));
    }
    if q.category.Some? && q.category.value != [] {
      FilterConcat(a1, b1, CategoryFilter(q.category.value));
      a1, b1 := Filter(a1, CategoryFilter(q.category.value)), Filter(b1, CategoryFilter(q.category.value));
    }
    if q.inStock.Some? {
      FilterConcat(a1, b1, StockFilter(q.inStock.value));
      a1, b1 := Filter(a1, StockFilter(q.inStock.value)), Filter(b1, StockFilter(q.inStock.value));
    }
    if q.minPrice.Some? {
      FilterConcat(a1, b1, MinPriceFilter(q.minPrice.value));
      a1, b1 := Filter(a1, MinPriceFilter(q.minPrice.value)), Filter(b1, MinPriceFilter(q.minPrice.value));
    }
    if q.maxPrice.Some? {
      FilterConcat(a1, b1, MaxPriceFilter(q.maxPrice.value));
    }
  }

  /** The listing of a single product is that product exactly when it matches. */
  lemma SearchSingleton(x: Product, q: SearchProductsDto)
    ensures Search([x], q) == if Matches(q, x) then [x] else []
  {
    // Pointing at the one candidate keeps the membership reasoning small.
    if Matches(q, x) {
      assert x in Search([x], q);
    } else {
      assert x !in Search([x], q);
    }
  }

  /** `findAll` is the ordered subsequence of the collection of exactly the
      products that satisfy every supplied filter. */
  lemma {:induction false} SearchIsOrderedFilter(products: seq<Product>, q: SearchProductsDto)
    ensures Search(products, q) == Filter(products, MatchFilter(q))
  {
    if products != [] {
      var x, rest := products[0], products[1..];
      assert products == [x] + rest;
      SearchConcat([x], rest, q);
      SearchIsOrderedFilter(rest, q);
      SearchSingleton(x, q);
    }
  }

  /** With no filter set, `findAll` returns the whole collection. */
  lemma SearchNoFilters(products: seq<Product>)
    ensures Search(products, NoFilters) == products
  {
  }

  // ---------------------------------------------------------------------
  // findOne
  // ---------------------------------------------------------------------

  /** Position of the first product with identifier `id` (lodash `find({ id })`). */
  function IndexOf(products: seq<Product>, id: string): (r: Option<nat>)
    ensures r.None? <==> !HasId(products, id)
    ensures r.Some? ==>
      r.value < |products| && products[r.value].id == id &&
      forall k :: 0 <= k < r.value ==> products[k].id != id
  {
    if products == [] then None
    else if products[0].id == id then Some(0)
    else match IndexOf(products[1..], id)
      case None => None
      case Some(i) => Some(i + 1)
  }

  /** `findOne`: the product with identifier `id`, or `NotFound`. */
  function FindOneIn(products: seq<Product>, id: string): (r: Result<Product, Error>)
    ensures r.Success? <==> HasId(products, id)
    ensures r.Success? ==> r.value in products && r.value.id == id
    ensures r.Success? ==> r.value == products[IndexOf(products, id).value]
    ensures r.Failure? ==> r.error == NotFound(id)
  {
    match IndexOf(products, id)
    case Some(i) => Success(products[i])
    case None => Failure(NotFound(id))
  }

  /** With distinct identifiers, `findOne` returns the one product carrying `id`. */
  lemma FindOneUnique(products: seq<Product>, p: Product)
    requires DistinctIds(products) && p in products
    ensures FindOneIn(products, p.id) == Success(p)
  {
  }

  // ---------------------------------------------------------------------
  // create
  // ---------------------------------------------------------------------

  /** The record `create` builds from a payload: fresh identifier, the
      payload's fields, no images, and both timestamps `now`. */
  function NewProduct(dto: CreateProductDto, id: string, now: nat): (p: Product)
    ensures Payload(p) == dto && p.id == id
    ensures p.images == Some([]) && p.createdAt == now && p.updatedAt == now
  {
    Product(id, dto.name, dto.description, dto.price, dto.category, dto.inStock, now, now, Some([]))
  }

  /** Appending a product whose identifier is new keeps identifiers distinct,
      and `findOne` then returns that product. */
  lemma {:induction false} AppendFresh(products: seq<Product>, p: Product)
    requires DistinctIds(products) && !HasId(products, p.id)
    ensures DistinctIds(products + [p])
    ensures FindOneIn(products + [p], p.id) == Success(p)
  {
    var all := products + [p];
    assert all[|products|] == p;
    FindOneUnique(all, p);
  }

  // ---------------------------------------------------------------------
  // update
  // ---------------------------------------------------------------------

  /** `{ ...product, ...dto, updatedAt: now }`. */
  function Merge(p: Product, dto: UpdateProductDto, now: nat): (r: Product)
    ensures r.id == p.id && r.createdAt == p.createdAt && r.images == p.images
    ensures r.updatedAt == now
    ensures r.name == dto.name.GetOr(p.name) && r.description == dto.description.GetOr(p.description)
    ensures r.price == dto.price.GetOr(p.price) && r.category == dto.category.GetOr(p.category)
    ensures r.inStock == dto.inStock.GetOr(p.inStock)
  {
    p.(name := dto.name.GetOr(p.name),
       description := dto.description.GetOr(p.description),
       price := dto.price.GetOr(p.price),
       category := dto.category.GetOr(p.category),
       inStock := dto.inStock.GetOr(p.inStock),
       updatedAt := now)
  }

  /** The update whose fields are all absent. */
  const EmptyUpdate: UpdateProductDto := UpdateProductDto(None, None, None, None, None)

  /** An update with no field present only refreshes `updatedAt`; applying
      the same update twice is applying it once. */
  lemma MergeProperties(p: Product, dto: UpdateProductDto, now: nat, later: nat)
    ensures Merge(p, EmptyUpdate, now) == p.(updatedAt := now)
    ensures Merge(Merge(p, dto, now), dto, later) == Merge(p, dto, later)
  {
  }

  /** Present fields that obey the creation rules (the update payload is
      validated field by field like the creation payload). */
  predicate ValidUpdate(dto: UpdateProductDto) {
    (dto.name.None? || dto.name.value != []) &&
    (dto.description.None? || dto.description.value != []) &&
    (dto.price.None? || dto.price.value >= 0.0) &&
    (dto.category.None? || dto.category.value != [])
  }

  /** A valid update keeps a product within the creation rules. */
  lemma MergeKeepsValid(p: Product, dto: UpdateProductDto, now: nat)
    requires CreateProduct.Valid(Payload(p)) && ValidUpdate(dto)
    ensures CreateProduct.Valid(Payload(Merge(p, dto, now)))
  {
  }

  // ---------------------------------------------------------------------
  // remove
  // ---------------------------------------------------------------------

  function IdIsNot(id: string): Product -> bool { (p: Product) => p.id != id }

  /** lodash `remove({ id })`: every product with identifier `id` is dropped,
      the others keep their order. */
  function RemoveId(products: seq<Product>, id: string): (r: seq<Product>)
    ensures !HasId(r, id)
    ensures forall p :: p in r <==> p in products && p.id != id
    ensures DistinctIds(products) ==> DistinctIds(r)
  {
    var r := Filter(products, IdIsNot(id));
    assert forall k :: 0 <= k < |r| ==> r[k] in r;
    SubsequenceKeepsDistinct(products, IdIsNot(id));
    r
  }

  /** Filtering keeps distinct identifiers distinct. */
  lemma {:induction false} SubsequenceKeepsDistinct(s: seq<Product>, keep: Product -> bool)
    ensures DistinctIds(s) ==> DistinctIds(Filter(s, keep))
  {
    if s != [] && DistinctIds(s) {
      SubsequenceKeepsDistinct(s[1..], keep);
      var tail := Filter(s[1..], keep);
      assert forall p :: p in tail ==> p in s[1..];
      assert forall k :: 0 <= k < |tail| ==> tail[k].id != s[0].id by {
        forall k | 0 <= k < |tail| ensures tail[k].id != s[0].id {
          assert tail[k] in s[1..];
          var j :| 0 <= j < |s[1..]| && s[1..][j] == tail[k];
          assert s[j + 1] == tail[k];
        }
      }
    }
  }

  /** Filtering a single product keeps it or drops it. */
  lemma FilterSingleton(x: Product, keep: Product -> bool)
    ensures Filter([x], keep) == if keep(x) then [x] else []
  {
  }

  /** Filtering out one rejected product between accepted ones removes just it. */
  lemma FilterDropsOne(before: seq<Product>, x: Product, after: seq<Product>, keep: Product -> bool)
    requires forall k :: 0 <= k < |before| ==> keep(before[k])
    requires forall k :: 0 <= k < |after| ==> keep(after[k])
    requires !keep(x)
    ensures Filter(before + [x] + after, keep) == before + after
  {
    FilterConcat(before + [x], after, keep);
    FilterConcat(before, [x], keep);
    FilterKeepsAll(before, keep);
    FilterKeepsAll(after, keep);
    FilterSingleton(x, keep);
    assert Filter(before + [x], keep) == before;
  }

  /** With distinct identifiers, removal deletes exactly the one position
      that holds `id`. */
  lemma RemoveSingle(products: seq<Product>, id: string, i: nat)
    requires DistinctIds(products) && i < |products| && products[i].id == id
    ensures RemoveId(products, id) == products[..i] + products[i + 1..]
  {
    var keep := IdIsNot(id);
    var before, after := products[..i], products[i + 1..];
    assert products == before + [products[i]] + after;
    forall k | 0 <= k < |before| ensures keep(before[k]) {
      assert before[k] == products[k];
    }
    forall k | 0 <= k < |after| ensures keep(after[k]) {
      assert after[k] == products[i + 1 + k];
    }
    FilterDropsOne(before, products[i], after, keep);
  }

  // ---------------------------------------------------------------------
  // addImages
  // ---------------------------------------------------------------------

  /** `{ ...product, images: [...(product.images || []), ...files], updatedAt: now }`. */
  function WithImages(p: Product, files: seq<string>, now: nat): (r: Product)
    ensures r.images.Some? && r.images.value == p.images.GetOr([]) + files
    ensures Payload(r) == Payload(p) && r.id == p.id && r.createdAt == p.createdAt
    ensures r.updatedAt == now
  {
    p.(images := Some(p.images.GetOr([]) + files), updatedAt := now)
  }

  /** Two attachments are one attachment of both lists, in order; no
      filename is dropped or merged with an equal one. */
  lemma WithImagesTwice(p: Product, first: seq<string>, second: seq<string>, t1: nat, t2: nat)
    ensures WithImages(WithImages(p, first, t1), second, t2) == WithImages(p, first + second, t2)
  {
    assert p.images.GetOr([]) + first + second == p.images.GetOr([]) + (first + second);
  }

  // ---------------------------------------------------------------------
  // The service
  // ---------------------------------------------------------------------

  class ProductsService {
    const databaseService: DatabaseService

    constructor (databaseService: DatabaseService)
      ensures this.databaseService == databaseService
    {
      this.databaseService := databaseService;
    }

    /** `create`: appends the new product; `id` stands for the generated UUID
        and `now` for the clock. The payload has passed the validation pipe. */
    method Create(dto: CreateProductDto, id: string, now: nat) returns (p: Product)
      requires Valid(dto)
      modifies databaseService
      ensures p == NewProduct(dto, id, now) && Valid(Payload(p))
      ensures databaseService.products == old(databaseService.products) + [p]
      ensures DistinctIds(old(databaseService.products)) && !HasId(old(databaseService.products), id) ==>
        DistinctIds(databaseService.products) && FindOneIn(databaseService.products, id) == Success(p)
    {
      p := NewProduct(dto, id, now);
      if DistinctIds(databaseService.products) && !HasId(databaseService.products, id) {
        AppendFresh(databaseService.products, p);
      }
      databaseService.products := databaseService.products + [p];
    }

    /** `findAll`: the filtered listing of the current collection. */
    method FindAll(q: SearchProductsDto) returns (r: seq<Product>)
      ensures r == Filter(databaseService.products, MatchFilter(q))
    {
      r := Search(databaseService.products, q);
      SearchIsOrderedFilter(databaseService.products, q);
    }

    /** `findOne`. */
    method FindOne(id: string) returns (r: Result<Product, Error>)
      ensures r == FindOneIn(databaseService.products, id)
    {
      r := FindOneIn(databaseService.products, id);
    }

    /** `update`: merges the present fields into the first product with
        identifier `id`, in place, or fails with `NotFound`. */
    method Update(id: string, dto: UpdateProductDto, now: nat) returns (r: Result<Product, Error>)
      modifies databaseService
      ensures !HasId(old(databaseService.products), id) ==>
        r == Failure(NotFound(id)) && databaseService.products == old(databaseService.products)
      ensures HasId(old(databaseService.products), id) ==>
        var i := IndexOf(old(databaseService.products), id).value;
        r == Success(Merge(old(databaseService.products)[i], dto, now)) &&
        databaseService.products == old(databaseService.products)[i := r.value]
      ensures Ids(databaseService.products) == Ids(old(databaseService.products))
    {
      match IndexOf(databaseService.products, id)
      case None =>
        r := Failure(NotFound(id));
      case Some(i) =>
        var updated := Merge(databaseService.products[i], dto, now);
        databaseService.products := databaseService.products[i := updated];
        r := Success(updated);
    }

    /** `remove`: drops the product with identifier `id`, or fails with
        `NotFound` and changes nothing. Either way `findOne(id)` then fails. */
    method Remove(id: string) returns (r: Result<(), Error>)
      modifies databaseService
      ensures r.Failure? <==> !HasId(old(databaseService.products), id)
      ensures r.Failure? ==> r.error == NotFound(id) && databaseService.products == old(databaseService.products)
      ensures r.Success? ==> databaseService.products == RemoveId(old(databaseService.products), id)
      ensures FindOneIn(databaseService.products, id) == Failure(NotFound(id))
    {
      if !HasId(databaseService.products, id) {
        r := Failure(NotFound(id));
      } else {
        databaseService.products := RemoveId(databaseService.products, id);
        r := Success(());
      }
    }

    /** `addImages`: appends the filenames to the first product with
        identifier `id`, or fails with `NotFound` and changes nothing. */
    method AddImages(id: string, files: seq<string>, now: nat) returns (r: Result<Product, Error>)
      modifies databaseService
      ensures !HasId(old(databaseService.products), id) ==>
        r == Failure(NotFound(id)) && databaseService.products == old(databaseService.products)
      ensures HasId(old(databaseService.products), id) ==>
        var i := IndexOf(old(databaseService.products), id).value;
        r == Success(WithImages(old(databaseService.products)[i], files, now)) &&
        databaseService.products == old(databaseService.products)[i := r.value]
      ensures Ids(databaseService.products) == Ids(old(databaseService.products))
    {
      match IndexOf(databaseService.products, id)
      case None =>
        r := Failure(NotFound(id));
      case Some(i) =>
        var updated := WithImages(databaseService.products[i], files, now);
        databaseService.products := databaseService.products[i := updated];
        r := Success(updated);
    }
  }

  /** A client of the service: create a product in an empty store, re-price
      it, attach the same two images twice, delete it; what each step
      returns follows from the contracts alone. */
  method EndToEnd(id: string, t0: nat, t1: nat, t2: nat, t3: nat)
  {
    var store := new DatabaseService(None);
    var service := new ProductsService(store);
    var created := service.Create(CreateProductDto("Mat", "d", 19.99, "Sports", true), id, t0);
    assert created.id == id && created.images == Some([]);
    var updated := service.Update(id, EmptyUpdate.(price := Some(24.99)), t1);
    assert updated == Success(created.(price := 24.99, updatedAt := t1));
    assert store.products == [updated.value];
    var files := ["a.png", "b.png"];
    assert updated.value.images.GetOr([]) + files == files;
    var once := service.AddImages(id, files, t2);
    assert once.Success? && store.products == [once.value] && once.value.images == Some(files);
    assert once.value.images.GetOr([]) + files == ["a.png", "b.png", "a.png", "b.png"];
    var twice := service.AddImages(id, files, t3);
    assert twice.Success? && twice.value.images == Some(["a.png", "b.png", "a.png", "b.png"]);
    var removed := service.Remove(id);
    assert removed.Success?;
    var found := service.FindOne(id);
    assert found == Failure(NotFound(id));
  }
}
