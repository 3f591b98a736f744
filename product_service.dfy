/**
 * The product service's records in place: the products table and the cache
 * that ProductController writes, and the UpdateProductStock queue job.
 */
module ProductService {
  import opened Http
  import opened Validation
  import opened Ledger

  class ProductStore {
    var products: map<int, Product>
    var cache: map<CacheKey, Body>
    var nextId: int

    ghost predicate Valid()
      reads this
    {
      forall id :: id in products ==> id < nextId
    }

    function State(): Ledger.State
      reads this
    {
      Ledger.State(products, cache)
    }

    constructor ()
      ensures Valid() && products == map[] && cache == map[] && nextId == 1
    {
      products, cache, nextId := map[], map[], 1;
    }

    /** `reduceStock`: validate, replay a cached answer, refuse or apply the decrement, cache the answer. */
    method ReduceStock(id: int, quantity: Value, key: Value) returns (r: Response)
      requires Valid()
      modifies this
      ensures Valid() && nextId == old(nextId)
      ensures (State(), r) == Reduce(old(State()), id, quantity, key)
      ensures old(NonNegative(products)) ==> NonNegative(products)
    {
      if !RequiredIntegerMin(quantity, 1) || !NullableStringMax(key, 255) {
        return Response(422, ValidationFailed);
      }
      if Keyed(key) && CacheKey(id, key.s) in cache {
        return Response(200, cache[CacheKey(id, key.s)]);
      }
      if id !in products {
        return Response(404, NotFound);
      }
      var product := products[id];
      if product.stock < quantity.i {
        var refusal := Rejected(product.stock, quantity.i);
        if Keyed(key) {
          cache := cache[CacheKey(id, key.s) := refusal];
        }
        return Response(422, refusal);
      }
      product := product.(stock := product.stock - quantity.i);
      products := products[id := product];
      var body := Reduced(id, product, quantity.i);
      if Keyed(key) {
        cache := cache[CacheKey(id, key.s) := body];
      }
      r := Response(200, body);
    }

    /** `store`: a product is created only with a name, a description, and a price and stock of at least zero. */
    method Store(name: Value, description: Value, price: Value, stock: Value) returns (r: Response)
      requires Valid()
      modifies this
      ensures Valid() && cache == old(cache)
      ensures old(NonNegative(products)) ==> NonNegative(products)
      ensures r.status == 201 || r.status == 422
      ensures r.status == 201 <==>
                RequiredStringMax(name, 255) && RequiredStringMax(description, 1000)
                && RequiredIntegerMin(price, 0) && RequiredIntegerMin(stock, 0)
      ensures r.status == 201 ==>
                old(nextId) !in old(products) && nextId == old(nextId) + 1
                && r.body == Shown(old(nextId), Product(name.s, description.s, price.i, stock.i))
                && products == old(products)[old(nextId) := Product(name.s, description.s, price.i, stock.i)]
      ensures r.status == 422 ==> products == old(products) && nextId == old(nextId) && r.body == ValidationFailed
    {
      if !(RequiredStringMax(name, 255) && RequiredStringMax(description, 1000)
           && RequiredIntegerMin(price, 0) && RequiredIntegerMin(stock, 0)) {
        return Response(422, ValidationFailed);
      }
      var product := Product(name.s, description.s, price.i, stock.i);
      var id := nextId;
      products := products[id := product];
      nextId := nextId + 1;
      r := Response(201, Shown(id, product));
    }

    /** `update`: the product must exist; each field given must pass its rule; only given fields change. */
    method Update(id: int, name: Value, description: Value, price: Value, stock: Value) returns (r: Response)
      requires Valid()
      modifies this
      ensures Valid() && cache == old(cache) && nextId == old(nextId)
      ensures old(NonNegative(products)) ==> NonNegative(products)
      ensures r.status in {200, 404, 422}
      ensures r.status == 404 <==> id !in old(products)
      ensures r.status == 422 <==>
                id in old(products)
                && !(SometimesStringMax(name, 255) && SometimesStringMax(description, 1000)
                     && SometimesIntegerMin(price, 0) && SometimesIntegerMin(stock, 0))
      ensures r.status != 200 ==> products == old(products)
      ensures r.status == 200 ==>
                var was := old(products)[id];
                var now := Product(if name.Str? then name.s else was.name,
                                   if description.Str? then description.s else was.description,
                                   if price.Int? then price.i else was.price,
                                   if stock.Int? then stock.i else was.stock);
                products == old(products)[id := now] && r.body == Shown(id, now)
    {
      if id !in products {
        return Response(404, NotFound);
      }
      if !(SometimesStringMax(name, 255) && SometimesStringMax(description, 1000)
           && SometimesIntegerMin(price, 0) && SometimesIntegerMin(stock, 0)) {
        return Response(422, ValidationFailed);
      }
      var product := products[id];
      if name.Str? {
        product := product.(name := name.s);
      }
      if description.Str? {
        product := product.(description := description.s);
      }
      if price.Int? {
        product := product.(price := price.i);
      }
      if stock.Int? {
        product := product.(stock := stock.i);
      }
      products := products[id := product];
      r := Response(200, Shown(id, product));
    }
  }

  /** The queued job that decrements one product's stock. */
  class UpdateProductStock {
    const productId: int
    const quantity: int

    constructor (productId: int, quantity: int)
      ensures this.productId == productId && this.quantity == quantity
    {
      this.productId := productId;
      this.quantity := quantity;
    }

    /** `handle`: `stock -= quantity` on the product when it exists; no check against zero. */
    method Handle(store: ProductStore)
      requires store.Valid()
      modifies store
      ensures store.Valid()
      ensures store.products == Decrement(old(store.products), productId, quantity)
      ensures store.cache == old(store.cache) && store.nextId == old(store.nextId)
    {
      if productId in store.products {
        var product := store.products[productId];
        product := product.(stock := product.stock - quantity);
        store.products := store.products[productId := product];
      }
    }
  }
}
