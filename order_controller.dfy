/**
 * The order service's controller over its own orders table: order creation
 * (validate, look up user and product, pre-check stock, insert inside a
 * local transaction, reserve stock through retried calls, commit or roll
 * back), quantity update, and status update.
 */
module OrderController {
  import opened Http
  import opened Validation
  import opened Retry
  import opened Ledger
  import opened ProductService
  import opened Remote
  import opened OrderModel

  /** The statuses an order may be set to, in the order `updateStatus`'s `in:` rule lists them. */
  function OrderStatuses(): (r: seq<string>)
    ensures |r| == 5 && "pending" in r
    ensures forall i, j :: 0 <= i < j < |r| ==> r[i] != r[j]
    ensures forall i :: 0 <= i < |r| ==> r[i] != "" && ',' !in r[i]
  {
    ["pending", "processing", "paid", "failed", "cancelled"]
  }

  /** The parameter list of that `in:` rule: the statuses joined by commas. */
  function OrderStatusRule(): string
  {
    Implode(OrderStatuses(), ',')
  }

  /** The `in:` rule accepts exactly the five order statuses. */
  lemma OrderStatusRuleParses()
    ensures Split(OrderStatusRule(), ',') == OrderStatuses()
    ensures forall v :: InRule(v, OrderStatusRule()) <==> v.Str? && v.s in OrderStatuses()
  {
    SplitImplode(OrderStatuses(), ',');
  }

  datatype Payload =
    | ValidationErrors
    | UserNotFound
    | ProductNotFound
    | InsufficientStock(available: int)
    | OrderJson(order: Order)
    | OrderUpdated(order: Order, product: Option<Product>, user: Option<int>)
    | StockUpdateFailed
    | Failed

  datatype Reply = Reply(status: int, body: Payload)

  /** The product carried by a 200 answer of `GET /products/{id}`. */
  function Snapshot(w: Wire): Product
  {
    if w.Catalog? && w.body.Shown? then w.body.product else Product("", "", 0, 0)
  }

  /** Every reduce-stock request in log[from..] is req. */
  ghost predicate OnlyReduction(log: seq<Request>, from: nat, req: Request)
  {
    forall i :: from <= i < |log| && log[i].PutReduceStock? ==> log[i] == req
  }

  /** Appending requests that reduce only by req keeps OnlyReduction. */
  lemma ExtendOnlyReduction(log: seq<Request>, from: nat, extra: seq<Request>, req: Request)
    requires OnlyReduction(log, from, req)
    requires forall j :: 0 <= j < |extra| && extra[j].PutReduceStock? ==> extra[j] == req
    ensures OnlyReduction(log + extra, from, req)
  {
  }

  /** Every reduce-stock request in log[from..] is for product pid and sends quantity n. */
  ghost predicate ReductionsOf(log: seq<Request>, from: nat, pid: int, n: int)
  {
    forall i :: from <= i < |log| && log[i].PutReduceStock? ==> log[i].productId == pid && log[i].quantity == Int(n)
  }

  /** Appending requests that reduce only pid by n keeps ReductionsOf. */
  lemma ExtendReductionsOf(log: seq<Request>, from: nat, extra: seq<Request>, pid: int, n: int)
    requires ReductionsOf(log, from, pid, n)
    requires forall j :: 0 <= j < |extra| && extra[j].PutReduceStock? ==>
               extra[j].productId == pid && extra[j].quantity == Int(n)
    ensures ReductionsOf(log + extra, from, pid, n)
  {
  }

  /**
   * Retried calls made one after the other from the n-th request on against
   * the ledger s, stopping at the first that throws: the request count after
   * them, whether none of them threw, and the ledger left.
   */
  function Calls(net: Network, n: nat, s: State, calls: seq<Request>): (r: (nat, bool, State))
    decreases |calls|
  {
    if calls == [] then (n, true, s)
    else
      var c := net.Retried(n, s, calls[0], DefaultAttempts);
      if c.1.Threw? then (n + c.0, false, c.2) else Calls(net, n + c.0, c.2, calls[1..])
  }

  /**
   * `store` past its pre-check, from the n-th request on against the ledger
   * s: the insert's created hook, then the three retried calls under the key
   * fixed right after the hook. The request count after it, whether the
   * transaction commits, and the ledger left.
   */
  function Reservation(net: Network, md5: string -> string, n: nat, s: State, order: Order): (r: (nat, bool, State))
  {
    var hook := CreatedHook(net, md5, n, s, order);
    var n1, s1 := hook.0, hook.1;
    Calls(net, n1, s1, [FetchUser(order.userId), FetchProduct(order.productId), ControllerRequest(md5, order, net.clock(n1))])
  }

  /**
   * The stock side of `update` moving order to newQuantity at price, from the
   * n-th request on against the ledger s: the updated hook of the save, the
   * controller's own reduce-stock call, and, when that call does not answer
   * 200, the updated hook of the reverting save. The request count after it,
   * whether the controller's call answered 200, and the ledger left.
   */
  function QuantityChange(net: Network, md5: string -> string, n: nat, s: State, order: Order, newQuantity: int, price: int)
    : (r: (nat, bool, State))
  {
    var updated := order.(quantity := newQuantity, totalPrice := price * newQuantity);
    var hook := UpdatedHook(net, md5, n, s, order, updated);
    Settlement(net, md5, hook.0, hook.1, updated, order.quantity, price)
  }

  /**
   * The part of QuantityChange after the first save, which left the row as
   * updated where it had oldQuantity: the controller's reduce-stock call for
   * the difference, and, unless it answers 200, the updated hook of the save
   * that puts oldQuantity back at price.
   */
  function Settlement(net: Network, md5: string -> string, n: nat, s: State, updated: Order, oldQuantity: int, price: int)
    : (r: (nat, bool, State))
  {
    var req := StockRequest(md5, updated, oldQuantity - updated.quantity, net.clock(n));
    var ok := net.Delivered(n) && Reduce(s, req.productId, req.quantity, req.key).1.status == 200;
    var s2 := net.After(n, s, req);
    if ok then (n + 1, true, s2)
    else
      var reverted := updated.(quantity := oldQuantity, totalPrice := price * oldQuantity);
      var hook := UpdatedHook(net, md5, n + 1, s2, updated, reverted);
      (hook.0, false, hook.1)
  }

  /**
   * A store whose requests past the pre-check reach no one (the created
   * hook's lookup and the three attempts at re-fetching the user are all
   * lost on the way) exhausts the user re-check, rolls back, and leaves the
   * ledger as it was.
   */
  lemma UnreachableStoreRollsBack(net: Network, md5: string -> string, n: nat, s: State, order: Order)
    requires forall i :: n <= i < n + 4 ==> net.faults(i) == Drop(RequestError(None))
    ensures Reservation(net, md5, n, s, order) == (n + 4, false, s)
  {
    net.UnreachableIsTriedToTheBudget(n + 1, s, FetchUser(order.userId), DefaultAttempts);
  }

  /**
   * A store whose five requests past the pre-check are all answered, with a
   * known user, a product holding the quantity, and the controller's key made
   * in the same second as the hook's: the hook reduces the stock, the
   * controller's reduction is answered 200 from the cache, and the order is
   * committed with the stock down by its quantity once.
   */
  lemma SameSecondStoreCommitsOnce(net: Network, md5: string -> string, n: nat, s: State, order: Order)
    requires forall x :: |md5(x)| == 32
    requires forall i :: n <= i < n + 5 ==> net.faults(i) == Deliver
    requires net.userStatus(order.userId) < 400 && net.clock(n + 1) == net.clock(n + 2)
    requires order.quantity >= 1 && order.productId in s.products && s.products[order.productId].stock >= order.quantity
    requires Cached(s, order.productId, Str(IdempotencyKey(md5, order.id, net.clock(n + 1)))).None?
    ensures var done := Reservation(net, md5, n, s, order);
            var p := s.products[order.productId];
            done.0 == n + 5 && done.1
            && done.2.products == s.products[order.productId := p.(stock := p.stock - order.quantity)]
  {
    var pid, mine := order.productId, ControllerRequest(md5, order, net.clock(n + 1));
    var key := Str(IdempotencyKey(md5, order.id, net.clock(n + 1)));
    assert mine == StockRequest(md5, order, -order.quantity, net.clock(n + 1));
    var s1 := net.After(n + 1, s, mine);
    assert CreatedHook(net, md5, n, s, order) == (n + 2, s1);
    assert s1 == Reduce(s, pid, Int(order.quantity), key).0;
    assert Cached(s1, pid, key).Some?;
    var calls := [FetchUser(order.userId), FetchProduct(pid), mine];
    assert pid in s1.products;
    assert net.OutcomeAt(n + 4, s1, mine).Returned?;
    assert net.Retried(n + 4, s1, mine, DefaultAttempts) == (1, net.OutcomeAt(n + 4, s1, mine), s1);
    assert [mine][1..] == [];
    assert Calls(net, n + 4, s1, [mine]) == (n + 5, true, s1);
    assert net.OutcomeAt(n + 3, s1, FetchProduct(pid)).Returned?;
    assert [FetchProduct(pid), mine][1..] == [mine];
    assert Calls(net, n + 3, s1, [FetchProduct(pid), mine]) == (n + 5, true, s1);
    assert net.OutcomeAt(n + 2, s1, FetchUser(order.userId)).Returned?;
    assert calls[1..] == [FetchProduct(pid), mine];
    assert Calls(net, n + 2, s1, calls) == (n + 5, true, s1);
  }

  /**
   * An update to the quantity the order already has sends a reduction of 0,
   * which the product service refuses with 422: the update fails, and the
   * ledger is as it was.
   */
  lemma UnchangedQuantityIsRefused(net: Network, md5: string -> string, n: nat, s: State, order: Order, price: int)
    ensures QuantityChange(net, md5, n, s, order, order.quantity, price) == (n + 1, false, s)
  {
    var updated := order.(quantity := order.quantity, totalPrice := price * order.quantity);
    var req := StockRequest(md5, updated, 0, net.clock(n));
    assert !ValidReduction(req.quantity, req.key);
  }

  /**
   * A quantity change whose three requests are all answered, on a product
   * holding the difference, with the controller's key made in the same second
   * as the updated hook's: the hook reduces the stock by |old - new|, the
   * controller's call is answered 200 from the cache, and the update succeeds
   * with the stock down by |old - new| once, whether the quantity went down
   * or up.
   */
  lemma SameSecondChangeAppliesOnce(net: Network, md5: string -> string, n: nat, s: State, order: Order, newQuantity: int, price: int)
    requires forall x :: |md5(x)| == 32
    requires forall i :: n <= i < n + 3 ==> net.faults(i) == Deliver
    requires newQuantity != order.quantity && net.clock(n + 1) == net.clock(n + 2)
    requires order.productId in s.products && s.products[order.productId].stock >= Abs(order.quantity - newQuantity)
    requires Cached(s, order.productId, Str(IdempotencyKey(md5, order.id, net.clock(n + 1)))).None?
    ensures var done := QuantityChange(net, md5, n, s, order, newQuantity, price);
            var p := s.products[order.productId];
            done.0 == n + 3 && done.1
            && done.2.products == s.products[order.productId := p.(stock := p.stock - Abs(order.quantity - newQuantity))]
  {
    var pid := order.productId;
    var updated := order.(quantity := newQuantity, totalPrice := price * newQuantity);
    var req := StockRequest(md5, updated, order.quantity - newQuantity, net.clock(n + 1));
    var s1 := net.After(n + 1, s, req);
    assert UpdatedHook(net, md5, n, s, order, updated) == (n + 2, s1);
    assert s1 == Reduce(s, pid, req.quantity, req.key).0;
    assert Cached(s1, pid, req.key).Some?;
    assert Reduce(s1, pid, req.quantity, req.key).1.status == 200;
    assert Settlement(net, md5, n + 2, s1, updated, order.quantity, price) == (n + 3, true, s1);
  }

  class OrderService {
    /** Committed rows of the orders table. */
    var rows: map<int, Order>
    /** Rows inserted inside the open transaction. */
    var staged: map<int, Order>
    /** `DB::transactionLevel() > 0` */
    var open: bool
    /** The next auto-increment id. */
    var nextId: int
    const net: Network
    /** PHP's md5, as a function of its input (32 hexadecimal characters). */
    const md5: string -> string

    ghost predicate Valid()
      reads this, net, net.products
    {
      net.Valid()
      && (forall id :: id in rows ==> id < nextId && rows[id].id == id)
      && (!open ==> staged == map[])
      && (forall s :: |md5(s)| == 32)
    }

    constructor (net: Network, md5: string -> string)
      requires net.Valid() && forall s :: |md5(s)| == 32
      ensures Valid() && rows == map[] && !open && nextId == 1
      ensures this.net == net && this.md5 == md5
    {
      this.net := net;
      this.md5 := md5;
      rows, staged, open, nextId := map[], map[], false, 1;
    }

    /**
     * `callWithRetry`: up to maxAttempts requests; a RequestException (4xx
     * and 5xx included) is retried after sleeping 100000 * n microseconds,
     * except after the last attempt, whose outcome is returned or rethrown.
     */
    method CallWithRetry(req: Request, maxAttempts: int) returns (o: Outcome<Wire>, delays: seq<nat>, ghost tries: nat)
      requires net.Valid() && maxAttempts >= 1
      modifies net, net.products
      ensures net.Valid() && net.products.nextId == old(net.products.nextId)
      // the requests sent, the outcome and the ledger are those of the retry loop over the network's answers
      ensures (tries, o, net.products.State()) == net.Retried(old(net.sent), old(net.products.State()), req, maxAttempts)
      ensures net.sent == old(net.sent) + tries && delays == Backoff(tries - 1)
      ensures net.log == old(net.log) + seq(tries, _ => req)
      ensures !req.PutReduceStock? ==> net.products.State() == old(net.products.State())
    {
      ghost var whole := net.Retried(net.sent, net.products.State(), req, maxAttempts);
      var count := 0;
      delays := [];
      while count < maxAttempts
        invariant net.Valid() && net.products.nextId == old(net.products.nextId)
        invariant count < maxAttempts && net.sent == old(net.sent) + count
        invariant var rest := net.Retried(net.sent, net.products.State(), req, maxAttempts - count);
                  whole == (count + rest.0, rest.1, rest.2)
        invariant delays == Backoff(count)
        invariant net.log == old(net.log) + seq(count, _ => req)
      {
        ghost var rest := net.Retried(net.sent, net.products.State(), req, maxAttempts - count);
        var outcome := net.Send(req);
        if !Retryable(outcome) || count + 1 == maxAttempts {
          assert rest == (1, outcome, net.products.State());
          return outcome, delays, count + 1;
        }
        assert rest.0 == 1 + net.Retried(net.sent, net.products.State(), req, maxAttempts - count - 1).0;
        delays := delays + [DelayStep * (count + 1)];
        count := count + 1;
      }
      assert false;
    }

    /** `DB::rollBack()`: discard what the transaction inserted. */
    method RollBack()
      requires Valid()
      modifies this
      ensures Valid() && !open && staged == map[]
      ensures rows == old(rows) && nextId == old(nextId)
    {
      staged, open := map[], false;
    }

    /**
     * `DB::beginTransaction()` and `Order::create`: the pending row is staged
     * under the next id, and the created hook runs.
     */
    method Insert(order: Order)
      requires Valid() && !open && order.id == nextId && order.quantity >= 1
      modifies this, net, net.products
      ensures Valid() && net.products.nextId == old(net.products.nextId)
      ensures open && staged == map[order.id := order] && nextId == old(nextId) + 1 && rows == old(rows)
      ensures net.sent >= old(net.sent) + 1 && net.log[old(net.sent)] == FetchProduct(order.productId)
      ensures net.sent <= old(net.sent) + 2 && net.log[..|old(net.log)|] == old(net.log)
      ensures net.sent == old(net.sent) + 2 ==>
                net.log[old(net.sent) + 1] == StockRequest(md5, order, -order.quantity, net.clock(old(net.sent) + 1))
      // the hook reduces exactly when it found the product, as Created states
      ensures (net.sent, net.products.State()) == CreatedHook(net, md5, old(net.sent), old(net.products.State()), order)
    {
      open := true;
      staged := map[order.id := order];
      nextId := nextId + 1;
      Created(net, md5, order);
    }

    /**
     * The three retried calls of `store`: re-check the user, re-check the
     * product, reduce the stock; true when none of them threw.
     */
    method Recheck(uid: int, pid: int, reduce: Request) returns (ok: bool)
      requires Valid() && reduce.PutReduceStock?
      modifies net, net.products
      ensures Valid() && net.products.nextId == old(net.products.nextId)
      ensures net.sent > old(net.sent) && net.log[..|old(net.log)|] == old(net.log)
      ensures OnlyReduction(net.log, |old(net.log)|, reduce)
      ensures ok ==> net.log[net.sent - 1] == reduce
      ensures (net.sent, ok, net.products.State()) ==
                Calls(net, old(net.sent), old(net.products.State()), [FetchUser(uid), FetchProduct(pid), reduce])
    {
      var user, _, _ := CallWithRetry(FetchUser(uid), DefaultAttempts);
      if user.Threw? {
        return false;
      }
      assert [FetchUser(uid), FetchProduct(pid), reduce][1..] == [FetchProduct(pid), reduce];
      ghost var log1 := net.log;
      ok := RecheckProduct(pid, reduce);
      assert net.log == log1 + net.log[|log1|..];
    }

    /** The product re-check and the stock reduction, when the user re-check returned. */
    method RecheckProduct(pid: int, reduce: Request) returns (ok: bool)
      requires Valid() && reduce.PutReduceStock?
      modifies net, net.products
      ensures Valid() && net.products.nextId == old(net.products.nextId)
      ensures net.sent > old(net.sent) && net.log[..|old(net.log)|] == old(net.log)
      ensures OnlyReduction(net.log, |old(net.log)|, reduce)
      ensures ok ==> net.log[net.sent - 1] == reduce
      ensures (net.sent, ok, net.products.State()) ==
                Calls(net, old(net.sent), old(net.products.State()), [FetchProduct(pid), reduce])
    {
      var product, _, _ := CallWithRetry(FetchProduct(pid), DefaultAttempts);
      if product.Threw? {
        return false;
      }
      assert [FetchProduct(pid), reduce][1..] == [reduce];
      ghost var n1, s1 := net.sent, net.products.State();
      var stock, _, _ := CallWithRetry(reduce, DefaultAttempts);
      ok := stock.Returned?;
      assert [reduce][1..] == [];
      assert Calls(net, n1, s1, [reduce]) == (net.sent, ok, net.products.State());
    }

    /**
     * The transactional part of `store`: insert the pending order (which fires
     * the created hook), fix the idempotency key, run the retried calls, then
     * commit; any exception rolls back.
     */
    method Reserve(uid: int, pid: int, q: int, total: int) returns (r: Reply, ghost key: string, ghost keyAt: nat)
      requires Valid() && !open && q >= 1
      modifies this, net, net.products
      ensures Valid() && net.products.nextId == old(net.products.nextId)
      ensures !open && staged == map[] && nextId == old(nextId) + 1
      ensures r.status == 201 || r == Reply(500, Failed)
      ensures var order := Order(old(nextId), uid, pid, q, total, "pending");
              if r.status == 201 then rows == old(rows)[order.id := order] && r.body == OrderJson(order)
              else rows == old(rows)
      ensures net.sent >= old(net.sent) + 1 && net.log[old(net.sent)] == FetchProduct(pid)
      ensures |net.log| >= |old(net.log)| && net.log[..|old(net.log)|] == old(net.log)
      // the created hook's reduction, if it sent one, is the second request
      ensures net.sent > old(net.sent) + 1 && net.log[old(net.sent) + 1].PutReduceStock? ==>
                net.log[old(net.sent) + 1] ==
                  StockRequest(md5, Order(old(nextId), uid, pid, q, total, "pending"), -q, net.clock(old(net.sent) + 1))
      // the key is computed once, from the order id and the second it was computed in
      ensures key == IdempotencyKey(md5, old(nextId), net.clock(keyAt))
      ensures old(net.sent) + 1 <= keyAt <= old(net.sent) + 2
      // every later reduction is the controller's, under that one key
      ensures var mine := ControllerRequest(md5, Order(old(nextId), uid, pid, q, total, "pending"), net.clock(keyAt));
              OnlyReduction(net.log, old(net.sent) + 2, mine) && (r.status == 201 ==> net.log[net.sent - 1] == mine)
      // it commits exactly when none of the three retried calls threw
      ensures var order := Order(old(nextId), uid, pid, q, total, "pending");
              var done := Reservation(net, md5, old(net.sent), old(net.products.State()), order);
              keyAt == CreatedHook(net, md5, old(net.sent), old(net.products.State()), order).0
              && net.sent == done.0 && net.products.State() == done.2 && (r.status == 201 <==> done.1)
    {
      var order := Order(nextId, uid, pid, q, total, "pending");
      ghost var start, s0 := net.sent, net.products.State();
      Insert(order);
      keyAt := net.sent;
      ghost var s1 := net.products.State();
      r, key := Conclude(order);
      assert Reservation(net, md5, start, s0, order) ==
               Calls(net, keyAt, s1, [FetchUser(uid), FetchProduct(pid), ControllerRequest(md5, order, net.clock(keyAt))]);
    }

    /**
     * `store` inside its transaction, once the order is inserted: fix the
     * idempotency key from the order id and the current second, run the three
     * retried calls, then commit, or roll back when one of them threw.
     */
    method Conclude(order: Order) returns (r: Reply, ghost key: string)
      requires Valid() && open && staged == map[order.id := order] && order.id !in rows && order.id < nextId
      modifies this, net, net.products
      ensures Valid() && net.products.nextId == old(net.products.nextId)
      ensures !open && staged == map[] && nextId == old(nextId)
      ensures r.status == 201 || r == Reply(500, Failed)
      ensures if r.status == 201 then rows == old(rows)[order.id := order] && r.body == OrderJson(order)
              else rows == old(rows)
      ensures key == IdempotencyKey(md5, order.id, net.clock(old(net.sent)))
      ensures net.sent > old(net.sent) && net.log[..|old(net.log)|] == old(net.log)
      ensures var mine := ControllerRequest(md5, order, net.clock(old(net.sent)));
              OnlyReduction(net.log, |old(net.log)|, mine) && (r.status == 201 ==> net.log[net.sent - 1] == mine)
      ensures var calls := [FetchUser(order.userId), FetchProduct(order.productId),
                            ControllerRequest(md5, order, net.clock(old(net.sent)))];
              var done := Calls(net, old(net.sent), old(net.products.State()), calls);
              net.sent == done.0 && net.products.State() == done.2 && (r.status == 201 <==> done.1)
    {
      var idempotencyKey := IdempotencyKey(md5, order.id, net.Now());
      key := idempotencyKey;
      var reduce := ControllerRequest(md5, order, net.Now());
      var ok := Recheck(order.userId, order.productId, reduce);
      if !ok {
        RollBack();
        return Reply(500, Failed), key;
      }
      rows := rows + staged;
      assert rows == old(rows)[order.id := order];
      staged, open := map[], false;
      r := Reply(201, OrderJson(order));
    }

    /**
     * The two lookups of `store`, outside the transaction: a 404 from either
     * maps to 404 and anything else thrown to 500; otherwise the product as
     * the product service showed it.
     */
    method LookUp(uid: int, pid: int) returns (failure: Option<Reply>, product: Product)
      requires Valid() && !open
      modifies net, net.products
      ensures Valid() && net.products.nextId == old(net.products.nextId)
      ensures net.products.State() == old(net.products.State())
      ensures var s0, before := old(net.sent), old(net.products.products);
              var userFound := net.Delivered(s0) && net.userStatus(uid) < 400;
              var productFound := net.Delivered(s0 + 1) && pid in before;
              net.sent >= s0 + 1 && net.log[..s0 + 1] == old(net.log) + [FetchUser(uid)]
              && (!userFound ==>
                    failure == Some(if net.Delivered(s0) && net.userStatus(uid) == 404 then Reply(404, UserNotFound)
                                    else Reply(500, Failed))
                    && net.sent == s0 + 1)
              && (userFound ==> net.sent == s0 + 2 && net.log == old(net.log) + [FetchUser(uid), FetchProduct(pid)])
              && (userFound && !productFound ==>
                    failure == Some(if net.Delivered(s0 + 1) then Reply(404, ProductNotFound) else Reply(500, Failed)))
              && (userFound && productFound ==> failure == None && product == before[pid])
    {
      var user := net.Send(FetchUser(uid));
      if user.Threw? {
        if IsClientError(user, 404) {
          return Some(Reply(404, UserNotFound)), Snapshot(UserShown(uid));
        }
        return Some(Reply(500, Failed)), Snapshot(UserShown(uid));
      }
      var found := net.Send(FetchProduct(pid));
      if found.Threw? {
        if IsClientError(found, 404) {
          return Some(Reply(404, ProductNotFound)), Snapshot(UserShown(uid));
        }
        return Some(Reply(500, Failed)), Snapshot(UserShown(uid));
      }
      return None, Snapshot(found.body);
    }

    /** `store`: create an order for an existing user and product with enough stock. */
    method Store(userId: Value, productId: Value, quantity: Value) returns (r: Reply, ghost key: string)
      requires Valid() && !open
      modifies this, net, net.products
      ensures Valid() && net.products.nextId == old(net.products.nextId)
      ensures !open && staged == map[]
      ensures r.status in {201, 404, 422, 500}
      ensures r.status != 201 ==> rows == old(rows)
      ensures !(RequiredInteger(userId) && RequiredInteger(productId) && RequiredIntegerMin(quantity, 1)) ==>
                r == Reply(422, ValidationErrors) && net.sent == old(net.sent)
                && net.products.State() == old(net.products.State()) && nextId == old(nextId)
      ensures RequiredInteger(userId) && RequiredInteger(productId) && RequiredIntegerMin(quantity, 1) ==>
                var uid, pid, q := userId.i, productId.i, quantity.i;
                var s0, before := old(net.sent), old(net.products.products);
                var userFound := net.Delivered(s0) && net.userStatus(uid) < 400;
                var productFound := net.Delivered(s0 + 1) && pid in before;
                net.sent >= s0 + 1 && net.log[s0] == FetchUser(uid)
                // lookups: a 404 maps to 404, any other failure to 500, with nothing else done
                && (!userFound ==>
                      r == (if net.Delivered(s0) && net.userStatus(uid) == 404 then Reply(404, UserNotFound)
                            else Reply(500, Failed))
                      && net.sent == s0 + 1)
                && (userFound ==> net.sent >= s0 + 2 && net.log[s0 + 1] == FetchProduct(pid))
                && (userFound && !productFound ==>
                      r == (if net.Delivered(s0 + 1) then Reply(404, ProductNotFound) else Reply(500, Failed))
                      && net.sent == s0 + 2)
                // the pre-check answers with the snapshot's stock and opens no transaction
                && (userFound && productFound && before[pid].stock < q ==>
                      r == Reply(422, InsufficientStock(before[pid].stock)) && net.sent == s0 + 2)
                && (!(userFound && productFound && before[pid].stock >= q) ==>
                      nextId == old(nextId) && net.products.State() == old(net.products.State()))
                // past the pre-check the order is committed exactly when the retried calls all returned
                && (userFound && productFound && before[pid].stock >= q ==>
                      var order := Order(old(nextId), uid, pid, q, before[pid].price * q, "pending");
                      var done := Reservation(net, md5, s0 + 2, old(net.products.State()), order);
                      (r.status == 201 || r == Reply(500, Failed)) && nextId == old(nextId) + 1
                      && net.sent == done.0 && net.products.State() == done.2 && (r.status == 201 <==> done.1))
      ensures r.status == 201 ==>
                RequiredInteger(userId) && RequiredInteger(productId) && RequiredIntegerMin(quantity, 1)
                && productId.i in old(net.products.products)
                && var order := Order(old(nextId), userId.i, productId.i, quantity.i,
                                      old(net.products.products)[productId.i].price * quantity.i, "pending");
                   rows == old(rows)[order.id := order] && r.body == OrderJson(order)
                   && net.log[net.sent - 1] == PutReduceStock(productId.i, quantity, Str(key))
    {
      if !(RequiredInteger(userId) && RequiredInteger(productId) && RequiredIntegerMin(quantity, 1)) {
        return Reply(422, ValidationErrors), "";
      }
      var uid, pid, q := userId.i, productId.i, quantity.i;
      ghost var log0 := net.log;
      var failure, product := LookUp(uid, pid);
      if failure.Some? {
        return failure.value, "";
      }
      assert net.log[|log0|] == FetchUser(uid) && net.log[|log0| + 1] == FetchProduct(pid);
      if product.stock < q {
        return Reply(422, InsufficientStock(product.stock)), "";
      }
      var total := product.price * q;
      ghost var keyAt;
      r, key, keyAt := Reserve(uid, pid, q, total);
    }

    /** `$order->save()` of a changed row outside a transaction, with its updated hook. */
    method Save(original: Order, order: Order)
      requires Valid() && !open && original.id in rows && order.id == original.id
      requires order.productId == original.productId
      modifies this, net, net.products
      ensures Valid() && !open && staged == map[] && nextId == old(nextId)
      ensures net.products.nextId == old(net.products.nextId)
      ensures rows == old(rows)[order.id := order]
      ensures |net.log| >= |old(net.log)| && net.log[..|old(net.log)|] == old(net.log)
      ensures ReductionsOf(net.log, |old(net.log)|, order.productId, Abs(original.quantity - order.quantity))
      ensures original.quantity == order.quantity ==>
                net.sent == old(net.sent) && net.products.State() == old(net.products.State())
      ensures (net.sent, net.products.State()) ==
                UpdatedHook(net, md5, old(net.sent), old(net.products.State()), original, order)
    {
      rows := rows[order.id := order];
      ghost var log0 := net.log;
      Updated(net, md5, original, order);
      ExtendReductionsOf(log0, |log0|, net.log[|log0|..], order.productId, Abs(original.quantity - order.quantity));
      assert log0 + net.log[|log0|..] == net.log;
    }

    /**
     * The stock-changing part of `update`: save the new quantity and total,
     * send the difference old - new to reduce-stock, and on failure put the
     * old quantity back, priced at the current price; true iff the call
     * answered 200.
     */
    method ApplyQuantity(order: Order, newQuantity: int, price: int) returns (ok: bool)
      requires Valid() && !open && order.id in rows && rows[order.id] == order
      modifies this, net, net.products
      ensures Valid() && !open && staged == map[] && nextId == old(nextId)
      ensures net.products.nextId == old(net.products.nextId)
      ensures |net.log| >= |old(net.log)| && net.log[..|old(net.log)|] == old(net.log)
      ensures ReductionsOf(net.log, |old(net.log)|, order.productId, Abs(order.quantity - newQuantity))
      ensures ok ==> newQuantity != order.quantity
                     && rows == old(rows)[order.id := order.(quantity := newQuantity, totalPrice := price * newQuantity)]
      ensures !ok ==> rows == old(rows)[order.id := order.(totalPrice := price * order.quantity)]
      // ok exactly when the controller's call, after the save's hook, was answered 200
      ensures (net.sent, ok, net.products.State()) ==
                QuantityChange(net, md5, old(net.sent), old(net.products.State()), order, newQuantity, price)
    {
      var updated := order.(quantity := newQuantity, totalPrice := price * newQuantity);
      ghost var log0 := net.log;
      Save(order, updated);
      ghost var log1 := net.log;
      ok := Settle(updated, order.quantity, price);
      ExtendReductionsOf(log1, |log0|, net.log[|log1|..], order.productId, Abs(order.quantity - newQuantity));
      assert log1 + net.log[|log1|..] == net.log;
    }

    /**
     * ApplyQuantity after the first save, which left the row as updated where
     * it had oldQuantity: send oldQuantity - new to reduce-stock, and unless
     * the answer is 200 save the row back at oldQuantity, priced at price.
     */
    method Settle(updated: Order, oldQuantity: int, price: int) returns (ok: bool)
      requires Valid() && !open && updated.id in rows && rows[updated.id] == updated
      modifies this, net, net.products
      ensures Valid() && !open && staged == map[] && nextId == old(nextId)
      ensures net.products.nextId == old(net.products.nextId)
      ensures |net.log| >= |old(net.log)| && net.log[..|old(net.log)|] == old(net.log)
      ensures ReductionsOf(net.log, |old(net.log)|, updated.productId, Abs(oldQuantity - updated.quantity))
      ensures ok ==> updated.quantity != oldQuantity && rows == old(rows)
      ensures !ok ==> rows == old(rows)[updated.id := updated.(quantity := oldQuantity, totalPrice := price * oldQuantity)]
      ensures (net.sent, ok, net.products.State()) ==
                Settlement(net, md5, old(net.sent), old(net.products.State()), updated, oldQuantity, price)
    {
      ghost var log0 := net.log;
      ghost var key := IdempotencyKey(md5, updated.id, net.Now());
      ok := OrderModel.UpdateProductStock(net, md5, updated, oldQuantity - updated.quantity);
      assert net.log == log0 + [net.log[|log0|]];
      ExtendReductionsOf(log0, |log0|, [net.log[|log0|]], updated.productId, Abs(oldQuantity - updated.quantity));
      if oldQuantity == updated.quantity {
        assert !ValidReduction(Int(0), Str(key));
      }
      if !ok {
        var reverted := updated.(quantity := oldQuantity, totalPrice := price * oldQuantity);
        ghost var log1 := net.log;
        Save(updated, reverted);
        ExtendReductionsOf(log1, |log0|, net.log[|log1|..], updated.productId, Abs(oldQuantity - updated.quantity));
        assert log1 + net.log[|log1|..] == net.log;
      }
    }

    /**
     * `update`: a new quantity is accepted up to the product's stock plus what
     * the order already holds; the stock change goes through ApplyQuantity,
     * and a success answers with the order, the product and the user.
     */
    method Update(id: int, quantity: Value) returns (r: Reply)
      requires Valid() && !open
      modifies this, net, net.products
      ensures Valid() && !open && staged == map[] && nextId == old(nextId)
      ensures net.products.nextId == old(net.products.nextId)
      ensures |net.log| >= |old(net.log)| && net.log[..|old(net.log)|] == old(net.log)
      ensures r.status in {200, 404, 422, 500}
      ensures !RequiredIntegerMin(quantity, 1) ==>
                r == Reply(422, ValidationErrors) && rows == old(rows) && net.sent == old(net.sent)
      ensures RequiredIntegerMin(quantity, 1) && id !in old(rows) ==>
                r == Reply(500, Failed) && rows == old(rows) && net.sent == old(net.sent)
      ensures RequiredIntegerMin(quantity, 1) && id in old(rows) ==>
                var order, newQ, before := old(rows)[id], quantity.i, old(net.products.products);
                var pid := order.productId;
                var found := net.Delivered(old(net.sent)) && pid in before;
                // every stock call of this update sends |old - new| for the order's product
                ReductionsOf(net.log, |old(net.log)|, pid, Abs(order.quantity - newQ))
                && (!found ==> r == Reply(404, ProductNotFound) && rows == old(rows) && net.sent == old(net.sent) + 1)
                && (found && newQ > before[pid].stock + order.quantity ==>
                      r == Reply(422, InsufficientStock(before[pid].stock + order.quantity))
                      && rows == old(rows) && net.sent == old(net.sent) + 1)
                && (found && newQ <= before[pid].stock + order.quantity ==>
                      var change := QuantityChange(net, md5, old(net.sent) + 1, old(net.products.State()),
                                                   order, newQ, before[pid].price);
                      (r.status == 200 <==> change.1)
                      && net.products.State() == change.2
                      && (r.status == 200 || r == Reply(500, StockUpdateFailed))
                      && (r.status == 200 ==>
                            newQ != order.quantity
                            && rows == old(rows)[id := order.(quantity := newQ, totalPrice := before[pid].price * newQ)]
                            && r.body.OrderUpdated? && r.body.order == rows[id])
                      && (r.status == 500 ==>
                            rows == old(rows)[id := order.(totalPrice := before[pid].price * order.quantity)]))
    {
      if !RequiredIntegerMin(quantity, 1) {
        return Reply(422, ValidationErrors);
      }
      if id !in rows {
        return Reply(500, Failed);
      }
      var order := rows[id];
      ghost var log0 := net.log;
      var product := GetProduct(net, order);
      if product.None? {
        return Reply(404, ProductNotFound);
      }
      var available := product.value.stock + order.quantity;
      if quantity.i > available {
        return Reply(422, InsufficientStock(available));
      }
      r := Change(order, quantity.i, product.value.price);
    }

    /**
     * `update` past its stock check: the stock change through ApplyQuantity,
     * then, on success, the order with its product and user loaded afresh.
     */
    method Change(order: Order, newQuantity: int, price: int) returns (r: Reply)
      requires Valid() && !open && order.id in rows && rows[order.id] == order
      modifies this, net, net.products
      ensures Valid() && !open && staged == map[] && nextId == old(nextId)
      ensures net.products.nextId == old(net.products.nextId)
      ensures |net.log| >= |old(net.log)| && net.log[..|old(net.log)|] == old(net.log)
      ensures ReductionsOf(net.log, |old(net.log)|, order.productId, Abs(order.quantity - newQuantity))
      ensures var change := QuantityChange(net, md5, old(net.sent), old(net.products.State()), order, newQuantity, price);
              (r.status == 200 <==> change.1)
              && net.products.State() == change.2
              && (r.status == 200 || r == Reply(500, StockUpdateFailed))
              && (r.status == 200 ==>
                    newQuantity != order.quantity
                    && rows == old(rows)[order.id := order.(quantity := newQuantity, totalPrice := price * newQuantity)]
                    && r.body.OrderUpdated? && r.body.order == rows[order.id])
              && (r.status == 500 ==> rows == old(rows)[order.id := order.(totalPrice := price * order.quantity)])
    {
      ghost var log0 := net.log;
      var ok := ApplyQuantity(order, newQuantity, price);
      if !ok {
        return Reply(500, StockUpdateFailed);
      }
      var updated := rows[order.id];
      ghost var log2 := net.log;
      var refreshed := GetProduct(net, updated);
      var user := GetUser(net, updated);
      ExtendReductionsOf(log2, |log0|, [FetchProduct(order.productId), FetchUser(order.userId)],
                         order.productId, Abs(order.quantity - newQuantity));
      r := Reply(200, OrderUpdated(updated, refreshed, user));
    }

    /** `updateStatus`: only the five order statuses are accepted; the row must exist. */
    method UpdateStatus(id: int, status: Value) returns (r: Reply)
      requires Valid() && !open
      modifies this, net, net.products
      ensures Valid() && !open && staged == map[] && nextId == old(nextId)
      ensures net.sent == old(net.sent) && net.products.State() == old(net.products.State())
      ensures net.products.nextId == old(net.products.nextId)
      ensures r.status in {200, 422, 500}
      ensures !(status.Str? && status.s in OrderStatuses()) ==> r == Reply(422, ValidationErrors) && rows == old(rows)
      ensures status.Str? && status.s in OrderStatuses() && id !in old(rows) ==> r == Reply(500, Failed) && rows == old(rows)
      ensures status.Str? && status.s in OrderStatuses() && id in old(rows) ==>
                var order := old(rows)[id].(status := status.s);
                r == Reply(200, OrderJson(order)) && rows == old(rows)[id := order]
    {
      // the `in:` rule, read through OrderStatusRuleParses
      if !(status.Str? && status.s in OrderStatuses()) {
        return Reply(422, ValidationErrors);
      }
      if id !in rows {
        return Reply(500, Failed);
      }
      var order := rows[id];
      var updated := order.(status := status.s);
      Save(order, updated);
      r := Reply(200, OrderJson(updated));
    }
  }
}
