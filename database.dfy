/** The product record and the store that holds the product collection
    (`DatabaseService`). The lowdb JSON file behind it is modelled as the
    in-memory sequence it loads into. */
module Database {
  import opened Wrappers
  import CreateProduct

  /** One product. Timestamps are instants on an abstract clock; `images` is
      optional on the record, so a stored product may lack the list. */
  datatype Product = Product(
    id: string,
    name: string,
    description: string,
    price: real,
    category: string,
    inStock: bool,
    createdAt: nat,
    updatedAt: nat,
    images: Option<seq<string>>)

  /** Some product in the collection has identifier `id`. */
  predicate HasId(products: seq<Product>, id: string) {
    exists k :: 0 <= k < |products| && products[k].id == id
  }

  /** No two products of the collection share an identifier. */
  predicate DistinctIds(products: seq<Product>) {
    forall j, k :: 0 <= j < k < |products| ==> products[j].id != products[k].id
  }

  /** The identifiers of the collection, in order. */
  function Ids(products: seq<Product>): (r: seq<string>)
    ensures |r| == |products|
    ensures forall k :: 0 <= k < |products| ==> r[k] == products[k].id
  {
    if products == [] then [] else [products[0].id] + Ids(products[1..])
  }

  /** The five fields a creation payload supplies, read back from a product. */
  function Payload(p: Product): CreateProduct.CreateProductDto {
    CreateProduct.CreateProductDto(p.name, p.description, p.price, p.category, p.inStock)
  }

  function Sample(id: string, name: string, description: string, price: real,
                  category: string, inStock: bool, now: nat): Product {
    Product(id, name, description, price, category, inStock, now, now, Some([]))
  }

  /** The example catalogue written by `initializeData`, all stamped `now`. */
  function SampleProducts(now: nat): seq<Product> {
    [ Sample("1", "Wireless Bluetooth Headphones",
             "High-quality wireless headphones with noise cancellation",
             199.99, "Electronics", true, now),
      Sample("2", "Organic Coffee Beans",
             "Premium organic coffee beans from Colombia",
             24.99, "Food & Beverages", true, now),
      Sample("3", "Yoga Mat",
             "Eco-friendly yoga mat with superior grip",
             49.99, "Sports & Fitness", false, now),
      Sample("4", "LED Desk Lamp",
             "Adjustable LED desk lamp with USB charging port",
             79.99, "Home & Office", true, now),
      Sample("5", "Running Shoes",
             "Lightweight running shoes with advanced cushioning",
             129.99, "Sports & Fitness", true, now) ]
  }

  /** The seed is five products with identifiers "1" to "5", in that order,
      hence pairwise distinct. */
  lemma SampleProductsIds(now: nat)
    ensures Ids(SampleProducts(now)) == ["1", "2", "3", "4", "5"]
    ensures DistinctIds(SampleProducts(now))
  {
  }

  /** Every seeded product has no images, a single creation instant, and
      fields that a creation payload would also have been allowed to carry. */
  lemma SampleProductsWellFormed(now: nat)
    ensures forall p :: p in SampleProducts(now) ==>
      p.images == Some([]) && p.createdAt == now && p.updatedAt == now &&
      CreateProduct.Valid(Payload(p))
  {
  }

  /** The store: the `products` list of the database document. */
  class DatabaseService {
    var products: seq<Product>

    /** Opening the store applies the default `{ products: [] }`: a list
        already stored (`stored`) is kept, a missing one becomes empty. */
    constructor (stored: Option<seq<Product>>)
      ensures stored.Some? ==> products == stored.value
      ensures stored.None? ==> products == []
    {
      products := stored.GetOr([]);
    }

    /** Startup hook: seeds the example catalogue only when the collection is empty. */
    method OnModuleInit(now: nat)
      modifies this
      ensures old(products) == [] ==> products == SampleProducts(now)
      ensures old(products) != [] ==> products == old(products)
      ensures products != []
    {
      if |products| == 0 {
        InitializeData(now);
      }
    }

    /** Replaces the collection with the example catalogue. */
    method InitializeData(now: nat)
      modifies this
      ensures products == SampleProducts(now)
      ensures |products| == 5 && DistinctIds(products)
    {
      products := SampleProducts(now);
      SampleProductsIds(now);
    }
  }
}
