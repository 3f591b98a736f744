/**
 * The payment record: its five statuses and the `creating` hook that gives a
 * new payment a transaction id when it has none.
 */
module PaymentModel {
  import opened Http
  import opened Validation
  import OrderController

  /** A row of the payments table; amount in cents, "" for a null transaction id. */
  datatype Payment = Payment(id: int, orderId: int, amount: int, status: string, transactionId: string)

  const StatusPending: string := "pending"
  const StatusProcessing: string := "processing"
  const StatusPaid: string := "paid"
  const StatusFailed: string := "failed"
  const StatusCancelled: string := "cancelled"

  /** `getStatuses`: the five statuses, each once, none empty and none holding a comma. */
  function GetStatuses(): (r: seq<string>)
    ensures |r| == 5 && StatusPending in r
    ensures forall i, j :: 0 <= i < j < |r| ==> r[i] != r[j]
    ensures forall i :: 0 <= i < |r| ==> r[i] != "" && ',' !in r[i]
  {
    [StatusPending, StatusProcessing, StatusPaid, StatusFailed, StatusCancelled]
  }

  /** The `in:` rule `updateStatus` builds with `implode(',', getStatuses())`. */
  function StatusRule(): string
  {
    Implode(GetStatuses(), ',')
  }

  /** The rule built from the list accepts exactly the listed statuses. */
  lemma StatusRuleAcceptsStatuses()
    ensures Split(StatusRule(), ',') == GetStatuses()
    ensures forall v :: InRule(v, StatusRule()) <==> v.Str? && v.s in GetStatuses()
  {
    SplitImplode(GetStatuses(), ',');
  }

  /** A payment and the order it pays for take their status from the same five values. */
  lemma StatusesMatchOrderStatuses()
    ensures GetStatuses() == OrderController.OrderStatuses()
    ensures StatusRule() == OrderController.OrderStatusRule()
    ensures forall v :: InRule(v, StatusRule()) <==> InRule(v, OrderController.OrderStatusRule())
  {
  }

  /** PHP `strtoupper` on one ASCII character: a lower-case letter moves 32 code points down. */
  function UpperChar(c: char): (u: char)
    ensures 'a' <= c <= 'z' ==> u as int == c as int - 32 && 'A' <= u <= 'Z'
    ensures !('a' <= c <= 'z') ==> u == c
  {
    if 'a' <= c <= 'z' then (c as int - 'a' as int + 'A' as int) as char else c
  }

  /**
   * PHP `strtoupper`: the same length, every lower-case ASCII letter replaced
   * by its capital, every other character kept; no lower-case letter is left.
   */
  function Upper(s: string): (u: string)
    ensures |u| == |s|
    ensures forall i :: 0 <= i < |s| && 'a' <= s[i] <= 'z' ==> u[i] as int == s[i] as int - 32
    ensures forall i :: 0 <= i < |s| && !('a' <= s[i] <= 'z') ==> u[i] == s[i]
    ensures forall i :: 0 <= i < |u| ==> !('a' <= u[i] <= 'z')
  {
    seq(|s|, i requires 0 <= i < |s| => UpperChar(s[i]))
  }

  /** Upper-casing twice is upper-casing once. */
  lemma UpperIdempotent(s: string)
    ensures Upper(Upper(s)) == Upper(s)
  {
  }

  /** `substr(s, -6)`: the last six characters, or all of a shorter string. */
  function Last6(s: string): (t: string)
    ensures |t| == if |s| < 6 then |s| else 6
    ensures t == s[|s| - |t|..]
  {
    if |s| <= 6 then s else s[|s| - 6..]
  }

  /** `'TRX-' . time() . '-' . strtoupper(substr(uniqid(), -6))` */
  function TransactionId(now: int, uniq: string): string
  {
    "TRX-" + IntToString(now) + "-" + Upper(Last6(uniq))
  }

  /**
   * A transaction id reads back into its second and its suffix: the suffix
   * is the last six characters of the unique id, upper-cased, and the time
   * sits between "TRX-" and the dash before the suffix.
   */
  lemma TransactionIdParts(now: int, uniq: string)
    requires |uniq| >= 6
    ensures var t := TransactionId(now, uniq);
            |t| == 11 + |IntToString(now)|
            && t[..4] == "TRX-" && t[|t| - 7] == '-'
            && t[4..|t| - 7] == IntToString(now)
            && t[|t| - 6..] == Upper(uniq[|uniq| - 6..])
            && forall i :: |t| - 6 <= i < |t| ==> !('a' <= t[i] <= 'z')
  {
  }

  /** Ids made in the same second from unique ids with different upper-cased suffixes differ. */
  lemma TransactionIdsDiffer(now: int, uniq1: string, uniq2: string)
    requires |uniq1| >= 6 && |uniq2| >= 6
    requires Upper(uniq1[|uniq1| - 6..]) != Upper(uniq2[|uniq2| - 6..])
    ensures TransactionId(now, uniq1) != TransactionId(now, uniq2)
  {
    TransactionIdParts(now, uniq1);
    TransactionIdParts(now, uniq2);
  }

  /**
   * The `creating` hook: a payment without a transaction id (PHP-`empty`)
   * gets one made from the current second and a unique id; any other
   * payment is left as it is.
   */
  function Creating(p: Payment, now: int, uniq: string): (q: Payment)
    ensures q.(transactionId := p.transactionId) == p
    ensures !EmptyString(p.transactionId) ==> q == p
    ensures EmptyString(p.transactionId) ==> q.transactionId == TransactionId(now, uniq) && !EmptyString(q.transactionId)
  {
    if EmptyString(p.transactionId) then p.(transactionId := TransactionId(now, uniq)) else p
  }
}
