/**
 * What the order service's two writers of the stock ledger do together: the
 * Order model's hooks and the controller's own reduce-stock call, through
 * the product service's idempotency cache and the retry loop.
 */
module Interactions {
  import opened Http
  import opened Ledger
  import opened Retry
  import opened Remote
  import opened OrderModel

  /** What a delivered reduce-stock request looks like to the Guzzle client. */
  function Seen(resp: Response): Outcome<Wire>
  {
    ClientCall(resp.status, Catalog(resp.body))
  }

  /**
   * Within one second the created hook and the controller send the same
   * request: the controller's call is a replay of the hook's, and the
   * stock goes down once.
   */
  lemma SameSecondReducesOnce(s: State, md5: string -> string, order: Order, t: int)
    requires forall x :: |md5(x)| == 32
    requires order.quantity >= 1 && order.productId in s.products
    requires Cached(s, order.productId, Str(IdempotencyKey(md5, order.id, t))).None?
    ensures StockRequest(md5, order, -order.quantity, t) == ControllerRequest(md5, order, t)
    ensures var req := ControllerRequest(md5, order, t);
            var (s1, a1) := Reduce(s, req.productId, req.quantity, req.key);
            var (s2, a2) := Reduce(s1, req.productId, req.quantity, req.key);
            s2.products == s1.products && a2 == Response(200, a1.body)
            && (s.products[order.productId].stock >= order.quantity ==>
                  a1.status == 200 && s2.products[order.productId].stock == s.products[order.productId].stock - order.quantity)
  {
    var req := ControllerRequest(md5, order, t);
    StockReducedAtMostOnce(s, order.productId, req.quantity, req.key, 1);
  }

  /**
   * When the seconds differ the keys differ (md5 permitting), and the hook's
   * and the controller's reductions are both applied: the stock goes down
   * twice for one order.
   */
  lemma NextSecondReducesTwice(s: State, md5: string -> string, order: Order, t1: int, t2: int)
    requires forall x :: |md5(x)| == 32
    requires IdempotencyKey(md5, order.id, t1) != IdempotencyKey(md5, order.id, t2)
    requires order.quantity >= 1 && order.productId in s.products
    requires s.products[order.productId].stock >= 2 * order.quantity
    requires Cached(s, order.productId, Str(IdempotencyKey(md5, order.id, t1))).None?
    requires Cached(s, order.productId, Str(IdempotencyKey(md5, order.id, t2))).None?
    ensures var hook, mine := StockRequest(md5, order, -order.quantity, t1), ControllerRequest(md5, order, t2);
            var s1 := Reduce(s, hook.productId, hook.quantity, hook.key).0;
            var s2 := Reduce(s1, mine.productId, mine.quantity, mine.key).0;
            s2.products[order.productId].stock == s.products[order.productId].stock - 2 * order.quantity
  {
    var k1, k2 := IdempotencyKey(md5, order.id, t1), IdempotencyKey(md5, order.id, t2);
    DistinctKeysApplyTwice(s, order.productId, order.quantity, k1, k2);
  }

  /**
   * With keys from different seconds and stock for the hook's reduction but
   * not for a second one, the controller's first call is refused with 422,
   * which the retry loop retries; the retry is answered 200 from the cache,
   * so callWithRetry returns normally and the order is committed, with the
   * stock reduced once by the hook.
   */
  lemma RefusalIsRetriedIntoSuccess(s: State, md5: string -> string, order: Order, t1: int, t2: int)
    requires forall x :: |md5(x)| == 32
    requires IdempotencyKey(md5, order.id, t1) != IdempotencyKey(md5, order.id, t2)
    requires order.quantity >= 1 && order.productId in s.products
    requires order.quantity <= s.products[order.productId].stock < 2 * order.quantity
    requires Cached(s, order.productId, Str(IdempotencyKey(md5, order.id, t1))).None?
    requires Cached(s, order.productId, Str(IdempotencyKey(md5, order.id, t2))).None?
    ensures var hook, mine := StockRequest(md5, order, -order.quantity, t1), ControllerRequest(md5, order, t2);
            var s1 := Reduce(s, hook.productId, hook.quantity, hook.key).0;
            var (s2, first) := Reduce(s1, mine.productId, mine.quantity, mine.key);
            var (s3, second) := Reduce(s2, mine.productId, mine.quantity, mine.key);
            var run := [Seen(first), Seen(second)];
            first.status == 422 && second.status == 200
            && IsRun(run, DefaultAttempts) && Result(run).Returned?
            && s3.products[order.productId].stock == s.products[order.productId].stock - order.quantity
  {
    var pid, q := order.productId, order.quantity;
    var s1 := Reduce(s, pid, Int(q), Str(IdempotencyKey(md5, order.id, t1))).0;
    RefusalReplaysAs200(s1, pid, Int(q), Str(IdempotencyKey(md5, order.id, t2)));
  }

  /**
   * Lowering an order's quantity sends the released amount as a reduction:
   * the stock goes down by old - new instead of up.
   */
  lemma ReleaseIsSentAsReduction(s: State, md5: string -> string, order: Order, newQuantity: int, t: int)
    requires forall x :: |md5(x)| == 32
    requires 1 <= newQuantity < order.quantity && order.productId in s.products
    requires s.products[order.productId].stock >= order.quantity - newQuantity
    requires Cached(s, order.productId, Str(IdempotencyKey(md5, order.id, t))).None?
    ensures var req := StockRequest(md5, order, order.quantity - newQuantity, t);
            var (s1, a) := Reduce(s, req.productId, req.quantity, req.key);
            a.status == 200
            && s1.products[order.productId].stock == s.products[order.productId].stock - (order.quantity - newQuantity)
  {
  }

  /**
   * Lowering an order's quantity and raising it back in a later second sends
   * the difference twice, both times as a reduction: the stock ends 2 * d
   * lower instead of where it was.
   */
  lemma UpdateRoundTripReducesTwice(s: State, md5: string -> string, order: Order, lower: int, t1: int, t2: int)
    requires forall x :: |md5(x)| == 32
    requires 1 <= lower < order.quantity && order.productId in s.products
    requires IdempotencyKey(md5, order.id, t1) != IdempotencyKey(md5, order.id, t2)
    requires s.products[order.productId].stock >= 2 * (order.quantity - lower)
    requires Cached(s, order.productId, Str(IdempotencyKey(md5, order.id, t1))).None?
    requires Cached(s, order.productId, Str(IdempotencyKey(md5, order.id, t2))).None?
    ensures var down := StockRequest(md5, order, order.quantity - lower, t1);
            var up := StockRequest(md5, order.(quantity := lower), lower - order.quantity, t2);
            var s1 := Reduce(s, down.productId, down.quantity, down.key).0;
            var s2 := Reduce(s1, up.productId, up.quantity, up.key).0;
            s2.products[order.productId].stock == s.products[order.productId].stock - 2 * (order.quantity - lower)
  {
    var k1, k2 := IdempotencyKey(md5, order.id, t1), IdempotencyKey(md5, order.id, t2);
    DistinctKeysApplyTwice(s, order.productId, order.quantity - lower, k1, k2);
  }
}
