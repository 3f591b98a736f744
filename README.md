# Stock reservation and order lifecycle across the order, product and payment services

This project is a Dafny model of the part of a three-service shop (Laravel services for orders, products and payments) that keeps orders and product stock in step, with proofs about it.

- **Product service stock ledger.** This covers the products table and the idempotency cache behind `PUT /products/{id}/reduce-stock`. Module `Ledger` states it as pure functions over a value. Class `ProductService.ProductStore` holds the same state as fields that its methods update. It also covers product creation and update, and the queued `UpdateProductStock` job.
- **Order service's view of its collaborators.** Class `Remote.Network` sends each outbound Guzzle request through a scripted fault schedule. A request is delivered; or it is dropped on the way in, so the collaborator never sees it; or its answer is lost after the collaborator acted on it (a timeout). Either fault makes the client throw. A delivered reduce-stock request reaches the `ProductStore` itself. The user service is reduced to the status it answers for each user id. `time()` is a scripted clock, and `md5` is a function given to the service.
- **Order model hooks** (module `OrderModel`). After an insert, the `created` hook sends the order's quantity to reduce-stock. After a save that changes the quantity, the `updated` hook does the same with the difference. `updateProductStock` always sends the absolute value.
- **Order controller** (class `OrderController.OrderService`).
  - `store` validates, looks up the user and the product, and pre-checks the stock. It then opens a local transaction and inserts the pending order, which fires the created hook. It fixes the idempotency key and makes three retried calls. It commits, or rolls back on any exception.
  - `update` allows up to stock plus the quantity already held, and sends the delta. If the stock call fails it reverts the order's fields.
  - `updateStatus` sets one of the five statuses.
  - `callWithRetry` retries up to the attempt budget with a linear backoff. Module `Retry` states its runs as sequences of attempt outcomes. `Remote.Network.Retried` gives the same loop over the network's answers: how many requests it sends, what it returns or rethrows, and the ledger it leaves. The spec functions `Calls`, `Reservation` and `QuantityChange` compose it into what `store` and `update` do to the request count and the ledger, and decide whether they commit.
- **Payment service** (modules `PaymentModel` and `PaymentController`). It holds at most one payment per order, created pending at the order's total price. A `creating` hook fills in a `TRX-…` transaction id. `updateStatus` writes the new status before pushing it to the order service.
- **Interactions** (module `Interactions`). Lemmas about what the hooks, the controller, the cache and the retry loop do together.

Prices and amounts are integer cents. Request fields are `Value`s: absent, null, a JSON integer or a JSON string. Validation rules are predicates over them.

### Where the code and the design description differ (the model follows the code)

- **Retried 4xx.** `callWithRetry` catches every Guzzle `RequestException`. That includes 4xx `ClientException`s, so a 422 from reduce-stock is retried, not treated as final. `Retry.Retryable`; `Interactions.RefusalIsRetriedIntoSuccess`.
- **Refused stock can still commit an order.** A refused keyed reduction is cached, and its replay answers 200. So when the controller's reduction is refused and then retried, `callWithRetry` returns normally and `store` commits the order. The design promises that no order is persisted unless its reservation succeeded.
- **The created hook reduces stock on its own.** This happens before the controller's reduce-stock call, and the two are deduplicated only when both keys fall in the same second. `Interactions.SameSecondReducesOnce`, `Interactions.NextSecondReducesTwice`. Rolling back `store` does not undo either remote reduction.
- **Update sends every difference as a reduction.**
  - A released quantity is also sent as a reduction: `abs` drops the direction. So lowering a quantity and raising it back lowers the stock twice (`Interactions.UpdateRoundTripReducesTwice`). The update path is keyed like creation.
  - An `update` that keeps the quantity unchanged sends quantity 0, which reduce-stock refuses. The order is reverted and the answer is 500.
  - An `update` of a missing order answers 500, not 404, because `findOrFail` sits inside a catch-all.

## Model

| member | source | states |
|---|---|---|
| Http.ClientCall | service-order/app/Http/Controllers/Api/OrderController.php:78-86 | A status below 400 is returned with its body; 400 and above is thrown as a request exception carrying that status |
| Http.Abs | service-order/app/Models/Order.php:63 | The result is a natural number equal to x or to -x |
| Validation.SplitImplode | service-payment/app/Http/Controllers/Api/PaymentController.php:110 | Splitting a comma-joined non-empty list whose items hold no comma gives the list back, so an `in:` rule built with `implode` accepts exactly its items |
| Retry.BackoffDelays | service-order/app/Http/Controllers/Api/OrderController.php:315-316 | The n sleeps are 100000·1, …, 100000·n microseconds |
| Retry.BackoffIncreasing | service-order/app/Http/Controllers/Api/OrderController.php:316 | Each sleep is strictly longer than the one before |
| Retry.Run | service-order/app/Http/Controllers/Api/OrderController.php:299-321 | The attempts against a scripted endpoint form a run (1..max attempts, all but the last threw a RequestException, the last did not or the budget is spent) and are a prefix of the responses |
| Retry.RunIsUnique | service-order/app/Http/Controllers/Api/OrderController.php:299-321 | Any run that is a prefix of the responses is the one Run computes |
| Retry.PermanentFailure | service-order/app/Http/Controllers/Api/OrderController.php:304-320 | Against an endpoint that always throws a RequestException, exactly maxAttempts attempts are made and the last exception is what the call surfaces |
| Retry.FirstNonRetryableWins | service-order/app/Http/Controllers/Api/OrderController.php:304-312 | If attempt k is the first not to throw a RequestException and k < maxAttempts, the call makes k+1 attempts and yields attempt k |
| Ledger.Reduce | service-product/app/Http/Controllers/Api/ProductController.php:107-161 | Answers 200, 404 or 422, case by case: an invalid request changes nothing and answers 422; a valid request whose key already has an answer gets that answer with 200 and changes nothing; a fresh request for a missing product is 404 with nothing cached; a fresh request the stock covers lowers that product's stock by the quantity, answers 200 with the reduced product and caches the answer under its key; one the stock does not cover leaves the table as it was, answers 422 with available and requested quantities, and caches the refusal |
| Ledger.ReduceKeepsTable | service-product/app/Http/Controllers/Api/ProductController.php:122-161 | The table keeps its rows, no other product changes, non-negative stock stays non-negative, and a changed row means a valid fresh request the stock covered, answered 200 |
| Ledger.ReduceKeepsCache | service-product/app/Http/Controllers/Api/ProductController.php:122-161 | Without a key the cache is untouched; cache entries are never replaced; at most the request's own key is added |
| Ledger.Replay | service-product/app/Http/Controllers/Api/ProductController.php:107-161 | Repeated reduce-stock requests get one answer each; the table keeps its rows and its non-negativity, and no cached answer is dropped or replaced |
| Ledger.Show | service-product/app/Http/Controllers/Api/ProductController.php:202-214 | 200 with the product iff it exists, otherwise 404 |
| Ledger.Decrement | service-product/app/Jobs/UpdateProductStock.php:33-38 | Only the named product's stock changes, to stock − quantity; a missing product leaves the table unchanged |
| Ledger.RejectsInsufficientStock | service-product/app/Http/Controllers/Api/ProductController.php:132-145 | A valid uncached reduction above the stock leaves the products unchanged, answers 422 with available and requested quantities, and caches that answer under the key |
| Ledger.ReplaysAreIdempotent | service-product/app/Http/Controllers/Api/ProductController.php:122-127 | Once a key has an answer, any number of valid requests under it change nothing and each gets the cached body with status 200 |
| Ledger.FirstAnswerIsCached | service-product/app/Http/Controllers/Api/ProductController.php:139-159 | A valid keyed request for an existing product leaves exactly its answer body in the cache |
| Ledger.StockReducedAtMostOnce | service-product/app/Http/Controllers/Api/ProductController.php:122-159 | Sending one keyed reduction n+1 times leaves the stock as the first request left it, and every repeat answers 200 with the first body |
| Ledger.DistinctKeysApplyTwice | service-product/app/Http/Controllers/Api/ProductController.php:122-159 | The same reduction under two different keys is applied twice |
| Ledger.RefusalReplaysAs200 | service-product/app/Http/Controllers/Api/ProductController.php:122-145 | A refused keyed reduction answers 422, and its replay answers 200 with the cached refusal and no change |
| Ledger.UnkeyedRequestsAllApply | service-product/app/Http/Controllers/Api/ProductController.php:147-161 | Without a key, n accepted reductions of q lower the stock by n·q and leave the cache untouched |
| Ledger.JobIsUnguarded | service-product/app/Jobs/UpdateProductStock.php:35-37 | The job can take stock below zero, unlike reduceStock |
| ProductService.ProductStore.ReduceStock | service-product/app/Http/Controllers/Api/ProductController.php:101-161 | The new table, cache and answer are exactly Ledger.Reduce of the old state; a non-negative table stays non-negative |
| ProductService.ProductStore.Store | service-product/app/Http/Controllers/Api/ProductController.php:40-54 | 201 iff name (≤255), description (≤1000), price ≥ 0 and stock ≥ 0 are valid; then one new row under a fresh id and nothing else changes; otherwise 422 and nothing changes |
| ProductService.ProductStore.Update | service-product/app/Http/Controllers/Api/ProductController.php:224-251 | 404 iff the product is missing; 422 iff a given field fails its rule (negative price or stock included); on 200 exactly the given fields change |
| ProductService.UpdateProductStock.constructor | service-product/app/Jobs/UpdateProductStock.php:22-26 | Stores the product id and quantity unchanged |
| ProductService.UpdateProductStock.Handle | service-product/app/Jobs/UpdateProductStock.php:31-39 | The table becomes Ledger.Decrement of the old one; cache and ids unchanged |
| Remote.Answer | service-product/app/Http/Controllers/Api/ProductController.php:202-219 | Only a reduce-stock request can change the ledger; lookups leave it unchanged |
| Remote.Network.OutcomeAt | service-order/app/Http/Controllers/Api/OrderController.php:306 | A request that is not delivered throws its transport exception; anything thrown other than a RequestException is such a transport failure |
| Remote.Network.Send | service-order/app/Models/Order.php:45-48 | One request is logged; a dropped request throws its transport exception and changes nothing; a request whose answer is lost changes the ledger as its endpoint does and still throws; a delivered one changes the ledger as its endpoint does and its status goes through Guzzle's 4xx/5xx exceptions |
| Remote.Network.Retried | service-order/app/Http/Controllers/Api/OrderController.php:299-321 | Between 1 and budget requests are sent; lookups leave the ledger as it was |
| Remote.Network.RetriedIsRun | service-order/app/Http/Controllers/Api/OrderController.php:299-321 | The loop over the network's answers is the Retry run over those answers: same number of attempts, same final outcome, and the ledger those attempts leave |
| Remote.Network.UnreachableIsTriedToTheBudget | service-order/app/Http/Controllers/Api/OrderController.php:304-317 | A collaborator that no request reaches is tried the whole budget; the transport exception surfaces and the ledger is untouched |
| Remote.Network.LostReductionIsReplayed | service-order/app/Http/Controllers/Api/OrderController.php:128-133 | A reduction whose answer is lost after it was applied is retried under the same key and answered 200 from the cache: two attempts, a normal return, the stock down once |
| OrderModel.StockRequest | service-order/app/Models/Order.php:61-65 | The request sends abs(quantity), never negative, for the order's product |
| OrderModel.ControllerRequest | service-order/app/Http/Controllers/Api/OrderController.php:123-133 | The controller's reduction is for the order's product with the order's quantity under md5(id_time); for a non-negative quantity it is the very request the created hook sends in the same second |
| OrderModel.GetProduct | service-order/app/Models/Order.php:43-52 | Some(product as shown) iff the request was delivered and the product exists; None on any exception; the ledger is unchanged |
| OrderModel.GetUser | service-order/app/Models/Order.php:76-85 | Some iff the request was delivered and the user service answered below 400; None on any exception |
| OrderModel.UpdateProductStock | service-order/app/Models/Order.php:57-71 | Sends abs(quantity) under md5(id_time) and returns true iff it was delivered and reduce-stock answered 200; the ledger changes as that request does |
| OrderModel.Created | service-order/app/Models/Order.php:22-27 | Fetches the product, and only if that succeeds sends a reduction of the order's quantity |
| OrderModel.Updated | service-order/app/Models/Order.php:29-37 | Nothing is sent when the quantity is unchanged; otherwise fetches the product and, if found, sends abs(original − new) |
| OrderController.OrderStatuses | service-order/app/Http/Controllers/Api/OrderController.php:326 | Five distinct non-empty statuses, pending among them, none holding a comma |
| OrderController.OrderStatusRuleParses | service-order/app/Http/Controllers/Api/OrderController.php:325-327 | The `in:` rule accepts a value iff it is a string among the five statuses |
| OrderController.OrderService.CallWithRetry | service-order/app/Http/Controllers/Api/OrderController.php:299-321 | The number of requests sent, the outcome returned or rethrown and the ledger left are Retried over the network; the sleeps are Backoff(attempts − 1); every attempt resends the same request; lookups leave the ledger unchanged |
| OrderController.OrderService.RollBack | service-order/app/Http/Controllers/Api/OrderController.php:142-147 | Discards the staged insert and closes the transaction; committed rows unchanged |
| OrderController.OrderService.Insert | service-order/app/Http/Controllers/Api/OrderController.php:111-121 | Opens the transaction with the pending order staged under the next id; the created hook fetches the product and, exactly when that lookup was delivered and found it, sends the reduction keyed at the second it runs; request count and ledger are CreatedHook's |
| OrderController.OrderService.Recheck | service-order/app/Http/Controllers/Api/OrderController.php:126-133 | The three retried calls; true exactly when none of them threw, with request count and ledger as Calls over the user, product and reduce requests; every reduction sent is the given one, and success means the last request sent was that reduction |
| OrderController.OrderService.RecheckProduct | service-order/app/Http/Controllers/Api/OrderController.php:127-133 | The product re-check and the reduction, as Calls over those two requests |
| OrderController.OrderService.Reserve | service-order/app/Http/Controllers/Api/OrderController.php:110-147 | The transaction is closed on every path; 201 commits exactly the pending order, 500 leaves the rows unchanged; the key is computed once, right after the hook, and every later reduction is ControllerRequest under it; 201 exactly when Reservation commits, with its request count and ledger |
| OrderController.OrderService.Conclude | service-order/app/Http/Controllers/Api/OrderController.php:123-147 | After the insert: the key from the order id and the current second, the three retried calls, then commit exactly when none threw, or roll back; request count and ledger as Calls |
| OrderController.OrderService.LookUp | service-order/app/Http/Controllers/Api/OrderController.php:76-97 | A 404 from the user or product lookup gives 404, any other exception 500, with no transaction; otherwise the product as shown |
| OrderController.OrderService.Store | service-order/app/Http/Controllers/Api/OrderController.php:68-156 | 422 on invalid input with no request sent; lookup failures as LookUp; stock below quantity gives 422 with the snapshot's stock and no order; otherwise 201 with total = price × quantity and status pending committed exactly when Reservation commits, or 500 with no row; no path leaves a transaction open |
| OrderController.UnreachableStoreRollsBack | service-order/app/Http/Controllers/Api/OrderController.php:110-147 | When none of the requests past the pre-check reaches anyone, the user re-check exhausts its attempts, the order is rolled back and the ledger is untouched |
| OrderController.SameSecondStoreCommitsOnce | service-order/app/Http/Controllers/Api/OrderController.php:110-139 | With every request answered, a known user, enough stock and the key made in the hook's second, the order commits and the stock goes down by its quantity once |
| OrderController.OrderService.Save | service-order/app/Http/Controllers/Api/OrderController.php:226-229 | Writes the row and runs the updated hook, whose reductions all carry abs(original − new) |
| OrderController.OrderService.ApplyQuantity | service-order/app/Http/Controllers/Api/OrderController.php:226-244 | On success the row has the new quantity and price × new, and the quantity did change; on failure the row has the old quantity and price × old; every reduction sent carries abs(old − new); true exactly when QuantityChange says the controller's call was delivered and answered 200, with its request count and ledger |
| OrderController.OrderService.Settle | service-order/app/Http/Controllers/Api/OrderController.php:231-244 | After the first save: true exactly when Settlement says the call answered 200; otherwise the row is saved back at the old quantity |
| OrderController.OrderService.Update | service-order/app/Http/Controllers/Api/OrderController.php:193-265 | 422 on invalid quantity; 500 for a missing order; 404 when the product cannot be fetched; 422 with stock + old quantity when the new quantity exceeds it; otherwise 200 with the updated row exactly when QuantityChange succeeds, or 500 with the row reverted; the ledger is QuantityChange's |
| OrderController.OrderService.Change | service-order/app/Http/Controllers/Api/OrderController.php:226-257 | Past the stock check: 200 exactly when QuantityChange succeeds, with the updated row, then the product and the user loaded afresh; otherwise 500 with the row reverted |
| OrderController.UnchangedQuantityIsRefused | service-order/app/Http/Controllers/Api/OrderController.php:226-244 | An update to the quantity the order already has sends a reduction of 0, is refused, and leaves the ledger as it was |
| OrderController.SameSecondChangeAppliesOnce | service-order/app/Http/Controllers/Api/OrderController.php:226-244 | With every request answered, enough stock and the controller's key made in the hook's second, the update succeeds and the stock goes down by abs(old − new) once |
| OrderController.OrderService.UpdateStatus | service-order/app/Http/Controllers/Api/OrderController.php:323-345 | 422 with no change unless the status is one of the five; 500 for a missing order; otherwise only that row's status changes and no stock request is sent |
| Interactions.SameSecondReducesOnce | service-order/app/Models/Order.php:22-27 | Within one second the created hook's request equals the controller's, the second is a replay answered 200 with the first body, and the stock goes down once |
| Interactions.NextSecondReducesTwice | service-order/app/Http/Controllers/Api/OrderController.php:124-133 | With keys from different seconds the hook's and the controller's reductions both apply: the stock goes down by 2·quantity |
| Interactions.RefusalIsRetriedIntoSuccess | service-order/app/Http/Controllers/Api/OrderController.php:128-136 | With stock for one reduction only, the controller's call is refused with 422, retried, answered 200 from the cache, and callWithRetry returns normally |
| Interactions.ReleaseIsSentAsReduction | service-order/app/Models/Order.php:60-66 | Lowering a quantity lowers the stock by old − new |
| Interactions.UpdateRoundTripReducesTwice | service-order/app/Http/Controllers/Api/OrderController.php:231-235 | Lowering then restoring a quantity, with the two keys made in different seconds, lowers the stock by twice the difference. Each update also fires the updated hook, whose reduction is deduplicated with the controller's only within one second, so the source lowers the stock by at least that much |
| PaymentModel.GetStatuses | service-payment/app/Models/Payment.php:24-40 | Five distinct non-empty statuses, pending among them, none holding a comma |
| PaymentModel.StatusRuleAcceptsStatuses | service-payment/app/Http/Controllers/Api/PaymentController.php:109-115 | The rule built with implode accepts a value iff it is a string among getStatuses |
| PaymentModel.StatusesMatchOrderStatuses | service-payment/app/Models/Payment.php:31-40 | The payment statuses and the order statuses are the same list, and their `in:` rules accept the same values |
| PaymentModel.UpperChar | service-payment/app/Models/Payment.php:48 | A lower-case ASCII letter moves 32 code points down to its capital; any other character is kept |
| PaymentModel.Upper | service-payment/app/Models/Payment.php:48 | Same length; each lower-case ASCII letter becomes the character 32 code points below it, every other character is kept, and no lower-case letter is left |
| PaymentModel.UpperIdempotent | service-payment/app/Models/Payment.php:48 | Upper-casing twice is upper-casing once |
| PaymentModel.Last6 | service-payment/app/Models/Payment.php:48 | The last six characters, or the whole string when shorter |
| PaymentModel.TransactionIdParts | service-payment/app/Models/Payment.php:48 | A generated id reads back as "TRX-", the second, "-", and the last six characters of the unique id upper-cased, with no lower-case letter in the suffix |
| PaymentModel.TransactionIdsDiffer | service-payment/app/Models/Payment.php:48 | Within one second, unique ids with different upper-cased suffixes give different transaction ids |
| PaymentModel.Creating | service-payment/app/Models/Payment.php:46-50 | Only the transaction id can change; a non-empty one is kept; an empty one becomes a generated, non-empty id |
| PaymentController.InsertKeepsUniqueness | service-payment/app/Http/Controllers/Api/PaymentController.php:56-69 | Inserting for an order without a payment, under an unused transaction id, keeps one payment per order and distinct ids |
| PaymentController.StatusChangeKeepsUniqueness | service-payment/app/Http/Controllers/Api/PaymentController.php:119 | A status change keeps one payment per order and distinct ids |
| PaymentController.PaymentService.Store | service-payment/app/Http/Controllers/Api/PaymentController.php:40-94 | 422 on invalid order id; a 404 lookup gives 404, other failures 500; an existing payment gives 422 with that payment; otherwise 201 iff the generated transaction id is unused, inserting one pending payment at the order's total; at most one payment per order always holds |
| PaymentController.PaymentService.GetPaymentByOrder | service-payment/app/Http/Controllers/Api/PaymentController.php:96-105 | 404 iff the order has no payment; otherwise that order's one payment |
| PaymentController.PaymentService.UpdateStatus | service-payment/app/Http/Controllers/Api/PaymentController.php:107-134 | 404 for a missing payment; 422 with no change unless the status is one of getStatuses; otherwise the status is written and kept, answering 200 or, when the PUT to the order service throws, 500 |

## Left out

- Listing, showing and deleting, with the routes that reach them, are not modelled: `index`, `show`, `destroy`, `getOrdersByUser` and `checkStock`. The payment service's order lookup depends on the order service's `show`, so `PaymentService.Store` takes the outcome of that lookup as a parameter.
- PaymentController.PaymentService.UpdateStatus: the PUT to the order service is a parameter (its outcome), not a call into `OrderService.UpdateStatus`.
- Queue dispatches (`OrderCreated`, `PaymentProcessed`, `ProductCreated`) and all logging are left out as I/O. A dispatch that succeeds has no effect on the modelled state. A failing one does, which the next two lines describe.
- OrderController.OrderService.Store: a failing `OrderCreated` dispatch after the commit is not modelled. In the source it lands in the catch-all, whose roll-back has nothing to undo, so the answer is 500 with the order committed. The model always answers 201 once it commits.
- PaymentController.PaymentService.Store: a failing `PaymentProcessed` dispatch after the insert is not modelled. In the source it gives 500 with the payment inserted. The model answers 201.
- `usleep` is not performed. `CallWithRetry` returns the delays it would sleep.
- The 24-hour expiry of cached reduce-stock answers is left out, because the model has no clock for the cache. Entries live forever.
- Concurrency is out of scope for this sequential model: the pre-check/reserve race and the payment check-then-insert race.
- `md5`, `time()` and `uniqid()` are parameters: a function with 32-character results, a scripted clock, and a string.
- The user service is reduced to the status it answers for each user id. Its route points at a controller method that AuthController.php does not have, so the user service is not part of this model.
- Prices and amounts are integer cents. `numeric` prices with fractional cents, and the `integer` rule's acceptance of numeric strings, are not modelled.
- Response bodies carry a reason and the record, not the message text.
- Database failures (a failing insert or save in the order service, a 500 from the product service's catch-all) are not modelled. The only database error modelled is the unique index on `transaction_id`.
- Which transport failures Guzzle raises as a `RequestException` depends on the Guzzle version. `RequestError(None)` stands for one that is; `OtherError` for one that is not. A lost answer (the 5-second timeout) raises one of these after the collaborator has acted.
- OrderController.OrderService.CallWithRetry requires maxAttempts ≥ 1. Every caller passes the default of 3; with 0 the source would throw a null exception.
- PaymentController.PaymentService.GetPaymentByOrder returns the order's only payment. `first()` picks the lowest id, which matters only when an order has several payments, and that is excluded by the one-payment-per-order invariant.
- ProductService.ProductStore.Valid does not include non-negative stock, because the `UpdateProductStock` job can take stock below zero. ReduceStock, Store and Update keep a non-negative table non-negative; they promise nothing about one the job has already broken.
- PaymentController.PaymentService.Store and PaymentController.PaymentService.UpdateStatus take the order-service call's outcome as a parameter. They require that a returned outcome has a status below 400, because the Guzzle client throws for every other status.
- Snapshot: a product lookup answered below 400 whose body is not a product is read as a default product. The product service never answers that way.
