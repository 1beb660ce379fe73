/** Vocabulary shared by every module: optional values, error values and the
    order of text keys. */
module Common {

  datatype Option<+T> = None | Some(value: T)

  /** The sentinel values that callers look for with `errors.Is`.  `Port` stands for
      every error produced outside this service (database, provider, inventory). */
  datatype Sentinel =
    | EmptyOrder | EmptyCustomer | InvalidOrderItem | OrderNotPending | OrderNotPaid
    | NilRequest | InvalidCustomerTier
    | PaymentUncertain | PaymentRejected | FulfillmentPendingError | ConcurrentStateChange
    | UnknownChargeStatus | MissingChargeReference
    | Port

  /** An error is the set of sentinels its wrap chain contains; no error is the empty set. */
  type Error = set<Sentinel>

  const Nil: Error := {}

  /** Strict text order.  The proofs use it only as a total order with "" as least element. */
  predicate Below(a: string, b: string)
    decreases |b|
  {
    b != "" && (a == "" || a[0] < b[0] || (a[0] == b[0] && Below(a[1..], b[1..])))
  }

  lemma {:induction false} BelowIrreflexive(a: string)
    ensures !Below(a, a)
    decreases |a|
  {
    if a != "" { BelowIrreflexive(a[1..]); }
  }

  lemma {:induction false} BelowTotal(a: string, b: string)
    ensures a == b || Below(a, b) || Below(b, a)
    decreases |a|
  {
    if a != "" && b != "" && a[0] == b[0] {
      BelowTotal(a[1..], b[1..]);
      assert a == [a[0]] + a[1..] && b == [b[0]] + b[1..];
    }
  }

  lemma {:induction false} BelowTransitive(a: string, b: string, c: string)
    requires Below(a, b) && Below(b, c)
    ensures Below(a, c)
    decreases |a|
  {
    if a != "" && a[0] == b[0] && b[0] == c[0] {
      BelowTransitive(a[1..], b[1..], c[1..]);
    }
  }

  lemma BelowAsymmetric(a: string, b: string)
    requires Below(a, b)
    ensures !Below(b, a) && a != b
  {
    BelowIrreflexive(a);
    if Below(b, a) { BelowTransitive(a, b, a); }
  }

  /** Strictly increasing, so also free of duplicates. */
  ghost predicate Ascending(q: seq<string>) {
    forall i, j :: 0 <= i < j < |q| ==> Below(q[i], q[j])
  }
}
