/**
 * The order record and the lifecycle hooks of the Order model: after an
 * insert and after a save that changes the quantity, the model itself calls
 * the product service's reduce-stock endpoint.
 */
module OrderModel {
  import opened Http
  import opened Ledger
  import opened Remote

  /** A row of the orders table; total_price in cents. */
  datatype Order = Order(id: int, userId: int, productId: int, quantity: int, totalPrice: int, status: string)

  /** `md5($order->id . '_' . time())`, with md5 supplied by the caller. */
  function IdempotencyKey(md5: string -> string, id: int, time: int): string
  {
    md5(IntToString(id) + "_" + IntToString(time))
  }

  /** The reduce-stock request `updateProductStock(quantity)` sends at time t. */
  function StockRequest(md5: string -> string, order: Order, quantity: int, t: int): (req: Request)
    ensures req.PutReduceStock? && req.productId == order.productId
    ensures req.quantity == Int(Abs(quantity)) && req.quantity.i >= 0
  {
    PutReduceStock(order.productId, Int(Abs(quantity)), Str(IdempotencyKey(md5, order.id, t)))
  }

  /**
   * The reduce-stock request `store` sends through callWithRetry for a new
   * order, under the key made at time t: the order's own quantity, and the
   * very request the created hook sends at the same time.
   */
  function ControllerRequest(md5: string -> string, order: Order, t: int): (req: Request)
    ensures req.PutReduceStock? && req.productId == order.productId && req.quantity == Int(order.quantity)
    ensures req.key == Str(IdempotencyKey(md5, order.id, t))
    ensures order.quantity >= 0 ==> req == StockRequest(md5, order, -order.quantity, t)
  {
    PutReduceStock(order.productId, Int(order.quantity), Str(IdempotencyKey(md5, order.id, t)))
  }

  /**
   * The created hook run from the n-th request on against the ledger s: the
   * request count after it and the ledger it leaves.
   */
  function CreatedHook(net: Network, md5: string -> string, n: nat, s: State, order: Order): (r: (nat, State))
  {
    if net.Delivered(n) && order.productId in s.products then
      (n + 2, net.After(n + 1, s, StockRequest(md5, order, -order.quantity, net.clock(n + 1))))
    else (n + 1, s)
  }

  /**
   * The updated hook for a save of original as order, run from the n-th
   * request on against the ledger s: the request count after it and the
   * ledger it leaves.
   */
  function UpdatedHook(net: Network, md5: string -> string, n: nat, s: State, original: Order, order: Order): (r: (nat, State))
  {
    if original.quantity == order.quantity then (n, s)
    else if net.Delivered(n) && order.productId in s.products then
      (n + 2, net.After(n + 1, s, StockRequest(md5, order, original.quantity - order.quantity, net.clock(n + 1))))
    else (n + 1, s)
  }

  /** `getProduct`: the product as the service shows it, or None on any exception. */
  method GetProduct(net: Network, order: Order) returns (product: Option<Product>)
    requires net.Valid()
    modifies net, net.products
    ensures net.Valid() && net.products.nextId == old(net.products.nextId)
    ensures net.sent == old(net.sent) + 1 && net.log == old(net.log) + [FetchProduct(order.productId)]
    ensures net.products.State() == old(net.products.State())
    ensures product.Some? <==> net.Delivered(old(net.sent)) && order.productId in old(net.products.products)
    ensures product.Some? ==> product.value == old(net.products.products)[order.productId]
  {
    var o := net.Send(FetchProduct(order.productId));
    if o.Returned? && o.body.Catalog? && o.body.body.Shown? {
      product := Some(o.body.body.product);
    } else {
      product := None;
    }
  }

  /** `getUser`: the user, or None on any exception. */
  method GetUser(net: Network, order: Order) returns (user: Option<int>)
    requires net.Valid()
    modifies net, net.products
    ensures net.Valid() && net.products.nextId == old(net.products.nextId)
    ensures net.sent == old(net.sent) + 1 && net.log == old(net.log) + [FetchUser(order.userId)]
    ensures net.products.State() == old(net.products.State())
    ensures user.Some? <==> net.Delivered(old(net.sent)) && net.userStatus(order.userId) < 400
  {
    var o := net.Send(FetchUser(order.userId));
    if o.Returned? {
      user := Some(order.userId);
    } else {
      user := None;
    }
  }

  /**
   * `updateProductStock`: sends `abs(quantity)` to reduce-stock under a key
   * made from the order id and the current second; true iff the answer was 200.
   */
  method UpdateProductStock(net: Network, md5: string -> string, order: Order, quantity: int) returns (ok: bool)
    requires net.Valid()
    modifies net, net.products
    ensures net.Valid() && net.products.nextId == old(net.products.nextId)
    ensures var req := StockRequest(md5, order, quantity, old(net.Now()));
            net.sent == old(net.sent) + 1 && net.log == old(net.log) + [req]
            && net.products.State() == net.After(old(net.sent), old(net.products.State()), req)
            && (ok <==> net.Delivered(old(net.sent))
                        && Reduce(old(net.products.State()), order.productId, req.quantity, req.key).1.status == 200)
  {
    var req := StockRequest(md5, order, quantity, net.Now());
    var o := net.Send(req);
    ok := o.Returned? && o.status == 200;
  }

  /** The `created` hook: when the product can be fetched, reduce its stock by the order's quantity. */
  method Created(net: Network, md5: string -> string, order: Order)
    requires net.Valid()
    modifies net, net.products
    ensures net.Valid() && net.products.nextId == old(net.products.nextId)
    ensures var found := net.Delivered(old(net.sent)) && order.productId in old(net.products.products);
            var req := StockRequest(md5, order, -order.quantity, net.clock(old(net.sent) + 1));
            net.log == old(net.log) + [FetchProduct(order.productId)] + (if found then [req] else [])
            && net.products.State() == (if found then net.After(old(net.sent) + 1, old(net.products.State()), req)
                                        else old(net.products.State()))
    ensures (net.sent, net.products.State()) == CreatedHook(net, md5, old(net.sent), old(net.products.State()), order)
  {
    var product := GetProduct(net, order);
    if product.Some? {
      var _ := UpdateProductStock(net, md5, order, -order.quantity);
    }
  }

  /**
   * The `updated` hook: only when the quantity changed, and the product can be
   * fetched, send the difference original - new (as its absolute value).
   */
  method Updated(net: Network, md5: string -> string, original: Order, order: Order)
    requires net.Valid()
    modifies net, net.products
    ensures net.Valid() && net.products.nextId == old(net.products.nextId)
    ensures original.quantity == order.quantity ==>
              net.sent == old(net.sent) && net.log == old(net.log) && net.products.State() == old(net.products.State())
    ensures original.quantity != order.quantity ==>
              var found := net.Delivered(old(net.sent)) && order.productId in old(net.products.products);
              var req := StockRequest(md5, order, original.quantity - order.quantity, net.clock(old(net.sent) + 1));
              net.log == old(net.log) + [FetchProduct(order.productId)] + (if found then [req] else [])
              && net.products.State() == (if found then net.After(old(net.sent) + 1, old(net.products.State()), req)
                                          else old(net.products.State()))
    ensures (net.sent, net.products.State()) ==
              UpdatedHook(net, md5, old(net.sent), old(net.products.State()), original, order)
  {
    if original.quantity != order.quantity {
      var product := GetProduct(net, order);
      if product.Some? {
        var _ := UpdateProductStock(net, md5, order, original.quantity - order.quantity);
      }
    }
  }
}
