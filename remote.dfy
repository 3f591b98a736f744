/**
 * The order service's view of its collaborators. Every outbound request
 * takes the next slot of a scripted fault schedule: it is lost on the way in
 * (the client throws and the collaborator never sees it), acted on by the
 * collaborator with its answer lost on the way back (a timeout: the client
 * throws, but the collaborator's state has changed), or delivered, and its
 * answer goes through Guzzle's error handling. The product collaborator is the
 * ProductStore itself; the user collaborator is reduced to the status it
 * answers for each user id. `time()` is a scripted clock read by request
 * count.
 */
module Remote {
  import opened Http
  import opened Ledger
  import opened ProductService
  import opened Retry

  datatype Request =
    | FetchUser(userId: int)
    | FetchProduct(productId: int)
    | PutReduceStock(productId: int, quantity: Value, key: Value)

  datatype Wire = UserShown(userId: int) | Catalog(body: Body)

  /**
   * Drop: the request never reaches the collaborator. Lose: the collaborator
   * handles it, and the answer is lost (the client's 5-second timeout).
   * Either way the client throws without a response.
   */
  datatype Fault = Deliver | Drop(exc: Exc) | Lose(exc: Exc)

  predicate TransportFault(f: Fault)
  {
    !f.Deliver? ==> f.exc == RequestError(None) || f.exc == OtherError
  }

  /** The ledger after, the status and the body of a request that reaches its collaborator. */
  function Answer(s: Ledger.State, userStatus: int -> int, req: Request): (r: (Ledger.State, int, Wire))
    ensures !req.PutReduceStock? ==> r.0 == s
  {
    match req
    case FetchUser(uid) => (s, userStatus(uid), UserShown(uid))
    case FetchProduct(pid) =>
      var resp := Show(s, pid);
      (s, resp.status, Catalog(resp.body))
    case PutReduceStock(pid, q, k) =>
      var (s', resp) := Reduce(s, pid, q, k);
      (s', resp.status, Catalog(resp.body))
  }

  class Network {
    const products: ProductStore
    const userStatus: int -> int
    const faults: nat -> Fault
    const clock: nat -> int
    var sent: nat
    ghost var log: seq<Request>

    ghost predicate Valid()
      reads this, products
    {
      products.Valid() && |log| == sent && forall n: nat :: TransportFault(faults(n))
    }

    constructor (products: ProductStore, userStatus: int -> int, faults: nat -> Fault, clock: nat -> int)
      requires products.Valid()
      requires forall n: nat :: TransportFault(faults(n))
      ensures Valid() && sent == 0 && log == []
      ensures this.products == products && this.userStatus == userStatus
      ensures this.faults == faults && this.clock == clock
    {
      this.products := products;
      this.userStatus := userStatus;
      this.faults := faults;
      this.clock := clock;
      sent := 0;
      log := [];
    }

    /** `time()` read while the next request is being prepared. */
    function Now(): int
      reads this
    {
      clock(sent)
    }

    /** Whether the answer to the n-th request reaches the client. */
    predicate Delivered(n: nat)
    {
      faults(n).Deliver?
    }

    /** Whether the n-th request reaches its collaborator (its answer may still be lost). */
    predicate Reaches(n: nat)
    {
      !faults(n).Drop?
    }

    /** The ledger after the n-th request, req, met the ledger s. */
    function After(n: nat, s: Ledger.State, req: Request): Ledger.State
    {
      if Reaches(n) then Answer(s, userStatus, req).0 else s
    }

    /** What the client makes of the n-th request, req, sent against the ledger s. */
    function OutcomeAt(n: nat, s: Ledger.State, req: Request): (o: Outcome<Wire>)
      ensures !Delivered(n) ==> o == Threw(faults(n).exc)
      ensures o.Threw? && !o.exc.RequestError? ==> !Delivered(n) && faults(n).exc == OtherError
    {
      if Delivered(n) then
        var a := Answer(s, userStatus, req);
        ClientCall(a.1, a.2)
      else Threw(faults(n).exc)
    }

    /** The outcomes of k sends of req from the n-th request on, starting from the ledger s. */
    function Outcomes(n: nat, s: Ledger.State, req: Request, k: nat): (os: seq<Outcome<Wire>>)
      ensures |os| == k
      ensures k > 0 ==> os[0] == OutcomeAt(n, s, req)
      decreases k
    {
      if k == 0 then [] else [OutcomeAt(n, s, req)] + Outcomes(n + 1, After(n, s, req), req, k - 1)
    }

    /** The ledger after k sends of req from the n-th request on. */
    function AfterAll(n: nat, s: Ledger.State, req: Request, k: nat): Ledger.State
      decreases k
    {
      if k == 0 then s else AfterAll(n + 1, After(n, s, req), req, k - 1)
    }

    /** The attempts `callWithRetry` makes for req from the n-th request on, against the ledger s. */
    function Call(n: nat, s: Ledger.State, req: Request, maxAttempts: nat): (attempts: seq<Outcome<Wire>>)
      requires maxAttempts >= 1
      ensures IsRun(attempts, maxAttempts)
    {
      Run(Outcomes(n, s, req, maxAttempts), maxAttempts)
    }

    /**
     * `callWithRetry`'s loop for req from the n-th request on against the
     * ledger s, with budget attempts left: how many requests it sends, what
     * it returns or rethrows, and the ledger it leaves.
     */
    function Retried(n: nat, s: Ledger.State, req: Request, budget: nat): (r: (nat, Outcome<Wire>, Ledger.State))
      requires budget >= 1
      ensures 1 <= r.0 <= budget
      ensures !req.PutReduceStock? ==> r.2 == s
      decreases budget
    {
      var o := OutcomeAt(n, s, req);
      if budget == 1 || !Retryable(o) then (1, o, After(n, s, req))
      else
        var rest := Retried(n + 1, After(n, s, req), req, budget - 1);
        (rest.0 + 1, rest.1, rest.2)
    }

    /**
     * Retried is the run the Retry module describes, over the outcomes the
     * network gives to repeated sends of req: the same number of attempts,
     * the same final outcome, and the ledger those attempts leave.
     */
    lemma {:induction false} RetriedIsRun(n: nat, s: Ledger.State, req: Request, budget: nat)
      requires budget >= 1
      ensures var r := Retried(n, s, req, budget);
              r.0 == |Call(n, s, req, budget)| && r.1 == Result(Call(n, s, req, budget))
              && r.2 == AfterAll(n, s, req, r.0)
      decreases budget
    {
      var os := Outcomes(n, s, req, budget);
      if budget > 1 && Retryable(os[0]) {
        RetriedIsRun(n + 1, After(n, s, req), req, budget - 1);
        assert os[1..] == Outcomes(n + 1, After(n, s, req), req, budget - 1);
      }
    }

    /**
     * A collaborator that no request reaches, each failing with a transport
     * RequestException, is tried the whole budget; the last exception
     * surfaces and the ledger is untouched.
     */
    lemma {:induction false} UnreachableIsTriedToTheBudget(n: nat, s: Ledger.State, req: Request, budget: nat)
      requires budget >= 1
      requires forall i :: n <= i < n + budget ==> faults(i) == Drop(RequestError(None))
      ensures Retried(n, s, req, budget) == (budget, Threw(RequestError(None)), s)
      decreases budget
    {
      if budget > 1 {
        UnreachableIsTriedToTheBudget(n + 1, s, req, budget - 1);
      }
    }

    /**
     * A reduction whose answer is lost after the product service applied it
     * (a timeout) is retried under the same key, and the retry is answered
     * 200 from the cache: two attempts, a normal return, and the stock goes
     * down once.
     */
    lemma LostReductionIsReplayed(n: nat, s: Ledger.State, pid: int, q: int, key: string)
      requires faults(n) == Lose(RequestError(None)) && faults(n + 1) == Deliver
      requires ValidReduction(Int(q), Str(key)) && Keyed(Str(key)) && Cached(s, pid, Str(key)).None?
      requires pid in s.products && s.products[pid].stock >= q
      ensures var r := Retried(n, s, PutReduceStock(pid, Int(q), Str(key)), DefaultAttempts);
              r.0 == 2 && r.1.Returned? && r.1.status == 200
              && r.2.products == s.products[pid := s.products[pid].(stock := s.products[pid].stock - q)]
    {
      var req := PutReduceStock(pid, Int(q), Str(key));
      var s1 := After(n, s, req);
      assert s1 == Reduce(s, pid, Int(q), Str(key)).0;
      assert Cached(s1, pid, Str(key)).Some?;
      assert Retried(n + 1, s1, req, DefaultAttempts - 1) == (1, OutcomeAt(n + 1, s1, req), s1);
    }

    /** One request through a Guzzle client. */
    method Send(req: Request) returns (o: Outcome<Wire>)
      requires Valid()
      modifies this, products
      ensures Valid() && products.nextId == old(products.nextId)
      ensures sent == old(sent) + 1 && log == old(log) + [req]
      ensures products.State() == After(old(sent), old(products.State()), req)
      ensures o == OutcomeAt(old(sent), old(products.State()), req)
      ensures !Reaches(old(sent)) ==> products.State() == old(products.State())
      ensures Reaches(old(sent)) ==> products.State() == Answer(old(products.State()), userStatus, req).0
    {
      var n := sent;
      sent, log := sent + 1, log + [req];
      if faults(n).Drop? {
        return Threw(faults(n).exc);
      }
      match req {
        case FetchUser(uid) =>
          o := ClientCall(userStatus(uid), UserShown(uid));
        case FetchProduct(pid) =>
          var resp := Show(products.State(), pid);
          o := ClientCall(resp.status, Catalog(resp.body));
        case PutReduceStock(pid, q, k) =>
          var resp := products.ReduceStock(pid, q, k);
          o := ClientCall(resp.status, Catalog(resp.body));
      }
      if faults(n).Lose? {
        o := Threw(faults(n).exc);
      }
    }
  }
}
