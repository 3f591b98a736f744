/**
 * The product service's stock ledger as a value: the products table and the
 * idempotency cache, and what `reduceStock`, `show` and the
 * UpdateProductStock job do to them.
 */
module Ledger {
  import opened Http
  import opened Validation

  /** Prices are integers in cents (`decimal(10,2)` in the schema). */
  datatype Product = Product(name: string, description: string, price: int, stock: int)

  /** The cache entry `stock_reduction:{id}:{key}`. */
  datatype CacheKey = CacheKey(productId: int, key: string)

  datatype Body =
    | ValidationFailed
    | NotFound
    | Shown(id: int, product: Product)
    | Rejected(available: int, requested: int)
    | Reduced(id: int, product: Product, reduced: int)

  datatype Response = Response(status: int, body: Body)

  datatype State = State(products: map<int, Product>, cache: map<CacheKey, Body>)

  /** What every product row of the service satisfies when created or updated through its API. */
  ghost predicate NonNegative(products: map<int, Product>)
  {
    forall id :: id in products ==> products[id].stock >= 0 && products[id].price >= 0
  }

  /** The key takes part in caching: given, a string, and not PHP-`empty`. */
  predicate Keyed(key: Value)
  {
    key.Str? && !EmptyString(key.s)
  }

  /** The request passes `quantity: required|integer|min:1`, `idempotency_key: nullable|string|max:255`. */
  predicate ValidReduction(quantity: Value, key: Value)
  {
    RequiredIntegerMin(quantity, 1) && NullableStringMax(key, 255)
  }

  /** Stores the answer under the key, for 24 hours, when a key is in use. */
  function Remember(cache: map<CacheKey, Body>, id: int, key: Value, body: Body): (c: map<CacheKey, Body>)
    ensures Keyed(key) ==> c == cache[CacheKey(id, key.s) := body]
    ensures !Keyed(key) ==> c == cache
  {
    if Keyed(key) then cache[CacheKey(id, key.s) := body] else cache
  }

  /** The answer cached for this product and key, if any. */
  function Cached(s: State, id: int, key: Value): Option<Body>
  {
    if Keyed(key) && CacheKey(id, key.s) in s.cache then Some(s.cache[CacheKey(id, key.s)]) else None
  }

  /** `PUT /products/{id}/reduce-stock`. */
  function Reduce(s: State, id: int, quantity: Value, key: Value): (r: (State, Response))
    ensures r.1.status in {200, 404, 422}
    // an invalid request changes nothing
    ensures !ValidReduction(quantity, key) ==> r == (s, Response(422, ValidationFailed))
    // a key already answered gets that answer back with 200, and nothing changes
    ensures ValidReduction(quantity, key) && Cached(s, id, key).Some? ==>
              r == (s, Response(200, Cached(s, id, key).value))
    // a fresh request for a missing product is 404, with nothing cached
    ensures ValidReduction(quantity, key) && Cached(s, id, key).None? && id !in s.products ==>
              r == (s, Response(404, NotFound))
    // a fresh request the stock covers is applied, answered 200 and cached under its key
    ensures ValidReduction(quantity, key) && Cached(s, id, key).None? && id in s.products
            && quantity.i <= s.products[id].stock ==>
              var p := s.products[id].(stock := s.products[id].stock - quantity.i);
              r.0.products == s.products[id := p] && r.1 == Response(200, Reduced(id, p, quantity.i))
              && r.0.cache == Remember(s.cache, id, key, r.1.body)
    // a fresh request the stock does not cover is refused with 422, and the refusal cached
    ensures ValidReduction(quantity, key) && Cached(s, id, key).None? && id in s.products
            && quantity.i > s.products[id].stock ==>
              r.0.products == s.products && r.1 == Response(422, Rejected(s.products[id].stock, quantity.i))
              && r.0.cache == Remember(s.cache, id, key, r.1.body)
  {
    if !ValidReduction(quantity, key) then (s, Response(422, ValidationFailed))
    else if Cached(s, id, key).Some? then (s, Response(200, Cached(s, id, key).value))
    else if id !in s.products then (s, Response(404, NotFound))
    else
      var q := quantity.i;
      var p := s.products[id];
      if p.stock < q then
        var body := Rejected(p.stock, q);
        (s.(cache := Remember(s.cache, id, key, body)), Response(422, body))
      else
        var p' := p.(stock := p.stock - q);
        var body := Reduced(id, p', q);
        (State(s.products[id := p'], Remember(s.cache, id, key, body)), Response(200, body))
  }

  /**
   * A reduction touches at most the one product, and only its stock, and
   * only downwards, on a fresh accepted request: the table keeps its rows,
   * other rows are unchanged, and stock never goes below zero.
   */
  lemma ReduceKeepsTable(s: State, id: int, quantity: Value, key: Value)
    ensures var r := Reduce(s, id, quantity, key);
            r.0.products.Keys == s.products.Keys
            && (forall j :: j in s.products && j != id ==> r.0.products[j] == s.products[j])
            && (NonNegative(s.products) ==> NonNegative(r.0.products))
            && (id in s.products && r.0.products[id] != s.products[id] ==>
                  ValidReduction(quantity, key) && Cached(s, id, key).None? && quantity.i <= s.products[id].stock
                  && r.1.status == 200)
  {
  }

  /**
   * The cache is read and written only under a key, gains at most the
   * request's own entry, and never replaces an entry.
   */
  lemma ReduceKeepsCache(s: State, id: int, quantity: Value, key: Value)
    ensures var r := Reduce(s, id, quantity, key);
            (!Keyed(key) ==> r.0.cache == s.cache)
            && (forall c :: c in s.cache ==> c in r.0.cache && r.0.cache[c] == s.cache[c])
            && r.0.cache.Keys <= s.cache.Keys + (if Keyed(key) then {CacheKey(id, key.s)} else {})
  {
  }

  /** `GET /products/{id}`. */
  function Show(s: State, id: int): (r: Response)
    ensures r.status == 200 <==> id in s.products
    ensures r.status == 200 ==> r.body == Shown(id, s.products[id])
    ensures r.status != 200 ==> r == Response(404, NotFound)
  {
    if id in s.products then Response(200, Shown(id, s.products[id])) else Response(404, NotFound)
  }

  /** The UpdateProductStock job: `stock -= quantity` on a found product, with no lower bound. */
  function Decrement(products: map<int, Product>, id: int, quantity: int): (p: map<int, Product>)
    ensures p.Keys == products.Keys
    ensures forall j :: j in products && j != id ==> p[j] == products[j]
    ensures id in products ==>
              p[id] == products[id].(stock := products[id].stock - quantity)
  {
    if id in products then products[id := products[id].(stock := products[id].stock - quantity)] else products
  }

  /** A reduction that would take the stock below zero is refused and cached; the stock is untouched. */
  lemma RejectsInsufficientStock(s: State, id: int, quantity: Value, key: Value)
    requires ValidReduction(quantity, key) && Cached(s, id, key).None?
    requires id in s.products && s.products[id].stock < quantity.i
    ensures Reduce(s, id, quantity, key).0.products == s.products
    ensures Reduce(s, id, quantity, key).1 == Response(422, Rejected(s.products[id].stock, quantity.i))
    ensures Reduce(s, id, quantity, key).0.cache == Remember(s.cache, id, key, Rejected(s.products[id].stock, quantity.i))
  {
  }

  /** The requests of a client that sends the same reduction several times. */
  function Replay(s: State, id: int, requests: seq<(Value, Value)>): (r: (State, seq<Response>))
    ensures |r.1| == |requests|
    ensures r.0.products.Keys == s.products.Keys
    ensures NonNegative(s.products) ==> NonNegative(r.0.products)
    ensures forall c :: c in s.cache ==> c in r.0.cache && r.0.cache[c] == s.cache[c]
    decreases |requests|
  {
    if |requests| == 0 then (s, [])
    else
      var (s1, resp) := Reduce(s, id, requests[0].0, requests[0].1);
      var (s2, rest) := Replay(s1, id, requests[1..]);
      (s2, [resp] + rest)
  }

  /**
   * Once a keyed reduction has been answered (accepted or refused), every later
   * valid request with the same key, whatever its quantity, changes nothing
   * and gets the first answer back with status 200.
   */
  lemma {:induction false} ReplaysAreIdempotent(s: State, id: int, key: Value, requests: seq<(Value, Value)>)
    requires Keyed(key) && Cached(s, id, key).Some?
    requires forall k :: 0 <= k < |requests| ==> requests[k].1 == key && ValidReduction(requests[k].0, key)
    ensures Replay(s, id, requests).0 == s
    ensures forall k :: 0 <= k < |requests| ==> Replay(s, id, requests).1[k] == Response(200, Cached(s, id, key).value)
  {
    if |requests| > 0 {
      ReplaysAreIdempotent(s, id, key, requests[1..]);
    }
  }

  /** A first keyed request that reaches the product leaves its answer in the cache. */
  lemma FirstAnswerIsCached(s: State, id: int, quantity: Value, key: Value)
    requires ValidReduction(quantity, key) && Keyed(key) && id in s.products
    ensures Cached(Reduce(s, id, quantity, key).0, id, key) == Some(Reduce(s, id, quantity, key).1.body)
  {
  }

  /**
   * Sending one keyed reduction any number of times decrements the stock at
   * most once: the stock ends as the first request left it.
   */
  lemma {:induction false} StockReducedAtMostOnce(s: State, id: int, quantity: Value, key: Value, n: nat)
    requires ValidReduction(quantity, key) && Keyed(key) && id in s.products && Cached(s, id, key).None?
    ensures var reqs := seq(n + 1, _ => (quantity, key));
            Replay(s, id, reqs).0.products == Reduce(s, id, quantity, key).0.products
            && (forall k :: 0 < k <= n ==> Replay(s, id, reqs).1[k] == Response(200, Reduce(s, id, quantity, key).1.body))
  {
    var reqs := seq(n + 1, _ => (quantity, key));
    var s1 := Reduce(s, id, quantity, key).0;
    FirstAnswerIsCached(s, id, quantity, key);
    ReplaysAreIdempotent(s1, id, key, reqs[1..]);
  }

  /** Under two different keys the same reduction is applied twice. */
  lemma DistinctKeysApplyTwice(s: State, id: int, q: int, k1: string, k2: string)
    requires q >= 1 && |k1| <= 255 && |k2| <= 255 && k1 != k2
    requires !EmptyString(k1) && !EmptyString(k2)
    requires CacheKey(id, k1) !in s.cache && CacheKey(id, k2) !in s.cache
    requires id in s.products && s.products[id].stock >= 2 * q
    ensures var s1 := Reduce(s, id, Int(q), Str(k1)).0;
            Reduce(s1, id, Int(q), Str(k2)).0.products[id].stock == s.products[id].stock - 2 * q
  {
  }

  /**
   * A refused keyed reduction answers 422 the first time; the same request
   * sent again answers 200 with the cached refusal.
   */
  lemma RefusalReplaysAs200(s: State, id: int, quantity: Value, key: Value)
    requires ValidReduction(quantity, key) && Keyed(key) && Cached(s, id, key).None?
    requires id in s.products && s.products[id].stock < quantity.i
    ensures Reduce(s, id, quantity, key).1.status == 422
    ensures var s1 := Reduce(s, id, quantity, key).0;
            Reduce(s1, id, quantity, key) == (s1, Response(200, Rejected(s.products[id].stock, quantity.i)))
  {
  }

  /** Without a key every accepted request decrements again. */
  lemma {:induction false} UnkeyedRequestsAllApply(s: State, id: int, q: int, n: nat)
    requires q >= 1 && id in s.products && s.products[id].stock >= n * q
    ensures var r := Replay(s, id, seq(n, _ => (Int(q), Null)));
            r.0.cache == s.cache && id in r.0.products && r.0.products[id].stock == s.products[id].stock - n * q
    decreases n
  {
    if n > 0 {
      var s1 := Reduce(s, id, Int(q), Null).0;
      assert s1.products[id].stock == s.products[id].stock - q;
      assert s1.products[id].stock >= (n - 1) * q;
      UnkeyedRequestsAllApply(s1, id, q, n - 1);
      assert seq(n, _ => (Int(q), Null))[1..] == seq(n - 1, _ => (Int(q), Null));
    }
  }

  /** Unlike reduceStock, the job can take the stock below zero. */
  lemma JobIsUnguarded(products: map<int, Product>, id: int, quantity: int)
    requires id in products && products[id].stock < quantity
    ensures !NonNegative(Decrement(products, id, quantity))
  {
  }
}
