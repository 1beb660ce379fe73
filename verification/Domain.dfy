/** The order aggregate: its status machine, its event buffer and its total. */
module Domain {
  import opened Common

  type int64 = x: int | -0x8000_0000_0000_0000 <= x < 0x8000_0000_0000_0000

  const MAX_INT64: int := 0x7fff_ffff_ffff_ffff

  datatype OrderStatus = Pending | Paid | Failed | PaymentUnknown | FulfillmentPending | Completed

  datatype OrderItem = OrderItem(productId: string, quantity: int64, unitPrice: int64)

  datatype Attr = Text(text: string) | Number(number: int)

  datatype Event = Event(name: string, at: int, attrs: map<string, Attr>)

  /** The fields of an order that are stored and compared; the event buffer is not one of them. */
  datatype OrderData = OrderData(
    id: string, customerId: string, items: seq<OrderItem>,
    status: OrderStatus, createdAt: int, paymentReference: string)

  // ---------- the status machine as functions on values ----------

  datatype Mark = Pay(reference: string) | Fail | Doubt | Defer | Finish

  predicate CanMark(s: OrderStatus, m: Mark) {
    match m
    case Pay(_) => s == Pending || s == PaymentUnknown
    case Fail => s == Pending || s == PaymentUnknown
    case Doubt => s == Pending
    case Defer => s == Paid
    case Finish => s == Paid || s == FulfillmentPending
  }

  function Marked(o: OrderData, m: Mark): OrderData {
    match m
    case Pay(reference) => o.(status := Paid, paymentReference := reference)
    case Fail => o.(status := Failed)
    case Doubt => o.(status := PaymentUnknown)
    case Defer => o.(status := FulfillmentPending)
    case Finish => o.(status := Completed)
  }

  /** The event recorded when an order enters a status. */
  function EventName(s: OrderStatus): string {
    match s
    case Pending => "order.created"
    case Paid => "order.paid"
    case Failed => "order.failed"
    case PaymentUnknown => "order.payment_unknown"
    case FulfillmentPending => "order.fulfillment_pending"
    case Completed => "order.completed"
  }

  /** How far along its life an order is.  Both terminal statuses have the top rank. */
  function Rank(s: OrderStatus): nat {
    match s
    case Pending => 0
    case PaymentUnknown => 1
    case Paid => 2
    case FulfillmentPending => 3
    case Completed => 4
    case Failed => 4
  }

  predicate Terminal(s: OrderStatus) { s == Completed || s == Failed }

  predicate ValidItem(it: OrderItem) {
    it.productId != "" && it.quantity > 0 && it.unitPrice >= 0
  }

  predicate ValidItems(items: seq<OrderItem>) {
    forall i :: 0 <= i < |items| ==> ValidItem(items[i])
  }

  /** What NewOrder says about its arguments, in the order in which it checks them. */
  function Validation(customerId: string, items: seq<OrderItem>): Error {
    if customerId == "" then {EmptyCustomer}
    else if items == [] then {EmptyOrder}
    else if !ValidItems(items) then {InvalidOrderItem}
    else Nil
  }

  /** An order as NewOrder leaves it. */
  predicate Fresh(o: OrderData) {
    o.id != "" && Validation(o.customerId, o.items) == Nil && o.status == Pending && o.paymentReference == ""
  }

  /** The one mark that can end in the given order, if any. */
  function MarkInto(o: OrderData): Option<Mark> {
    match o.status
    case Pending => None
    case Paid => Some(Pay(o.paymentReference))
    case Failed => Some(Fail)
    case PaymentUnknown => Some(Doubt)
    case FulfillmentPending => Some(Defer)
    case Completed => Some(Finish)
  }

  /** One guarded Mark* or Complete call leads from a to b. */
  predicate Succeeds(a: OrderData, b: OrderData) {
    var m := MarkInto(b);
    m.Some? && CanMark(a.status, m.value) && b == Marked(a, m.value)
  }

  lemma MarkingSucceeds(o: OrderData, m: Mark)
    requires CanMark(o.status, m)
    ensures Succeeds(o, Marked(o, m)) && Rank(o.status) < Rank(Marked(o, m).status)
  {
  }

  lemma SuccessorRaisesRank(a: OrderData, b: OrderData)
    requires Succeeds(a, b)
    ensures Rank(a.status) < Rank(b.status) && !Terminal(a.status)
    ensures b.id == a.id && b.items == a.items && b.customerId == a.customerId && b.createdAt == a.createdAt
    ensures a.status == Paid || a.status == FulfillmentPending ==> b.paymentReference == a.paymentReference
  {
  }

  /** The status machine as its edges. */
  const EDGES: set<(OrderStatus, OrderStatus)> := {
    (Pending, PaymentUnknown), (Pending, Paid), (Pending, Failed),
    (PaymentUnknown, Paid), (PaymentUnknown, Failed),
    (Paid, FulfillmentPending), (Paid, Completed), (FulfillmentPending, Completed)
  }

  /** One guarded call leads from one order to another if and only if there is an edge between their
      statuses and nothing else differs, except that payment sets the reference. */
  lemma SuccessorsFollowEdges(a: OrderData, b: OrderData)
    ensures Succeeds(a, b) <==>
              && (a.status, b.status) in EDGES
              && b == a.(status := b.status,
                         paymentReference := if b.status == Paid then b.paymentReference else a.paymentReference)
  {
  }

  // ---------- totals ----------

  /** Go's wrap-around of a mathematical integer into a signed 64-bit one. */
  function Wrap(x: int): int64 {
    (x + 0x8000_0000_0000_0000) % 0x1_0000_0000_0000_0000 - 0x8000_0000_0000_0000
  }

  /** The mathematical order value in cents. */
  function MathTotal(items: seq<OrderItem>): int {
    if items == [] then 0
    else MathTotal(items[..|items| - 1]) + items[|items| - 1].unitPrice * items[|items| - 1].quantity
  }

  /** The value of one item, and of two lists together. */
  lemma {:induction false} MathTotalAdds(a: seq<OrderItem>, b: seq<OrderItem>)
    ensures MathTotal(a + b) == MathTotal(a) + MathTotal(b)
    ensures |a| == 1 ==> MathTotal(a) == a[0].quantity * a[0].unitPrice
    decreases |b|
  {
    if b == [] {
      assert a + b == a;
    } else {
      assert (a + b)[..|a + b| - 1] == a + b[..|b| - 1];
      MathTotalAdds(a, b[..|b| - 1]);
    }
    if |a| == 1 { assert MathTotal(a[..0]) == 0; }
  }

  /** What Order.Total returns. */
  function TotalCents(items: seq<OrderItem>): int64 { Wrap(MathTotal(items)) }

  lemma WrapAbsorbs(a: int, b: int)
    ensures Wrap(Wrap(a) + Wrap(b)) == Wrap(a + b)
  {
    var m := 0x1_0000_0000_0000_0000;
    var h := 0x8000_0000_0000_0000;
    var qa, qb := (a + h) / m, (b + h) / m;
    assert Wrap(a) == a - m * qa && Wrap(b) == b - m * qb;
    ShiftMod(a + b + h, -(qa + qb));
    assert Wrap(a) + Wrap(b) + h == a + b + h + m * -(qa + qb);
  }

  lemma ShiftMod(x: int, k: int)
    ensures (x + 0x1_0000_0000_0000_0000 * k) % 0x1_0000_0000_0000_0000 == x % 0x1_0000_0000_0000_0000
  {
    var m := 0x1_0000_0000_0000_0000;
    assert (x + m * k) - m * ((x + m * k) / m) == (x + m * k) % m;
    var d := (x + m * k) / m - x / m - k;
    assert (x + m * k) % m - x % m == -m * d;
  }

  lemma {:induction false} MathTotalNonNegative(items: seq<OrderItem>)
    requires ValidItems(items)
    ensures MathTotal(items) >= 0
    decreases |items|
  {
    if items != [] {
      MathTotalNonNegative(items[..|items| - 1]);
      ProductNonNegative(items[|items| - 1]);
    }
  }

  lemma ProductNonNegative(it: OrderItem)
    requires ValidItem(it)
    ensures it.unitPrice * it.quantity >= 0
  {
  }

  /** The charged amount is always congruent to the true one, and equals it exactly when the
      true one fits in 64 bits. */
  lemma TotalExactIffInRange(items: seq<OrderItem>)
    requires ValidItems(items)
    ensures (TotalCents(items) - MathTotal(items)) % 0x1_0000_0000_0000_0000 == 0
    ensures TotalCents(items) == MathTotal(items) <==> MathTotal(items) <= MAX_INT64
  {
    MathTotalNonNegative(items);
    var m := 0x1_0000_0000_0000_0000;
    var h := 0x8000_0000_0000_0000;
    var q := (MathTotal(items) + h) / m;
    assert TotalCents(items) - MathTotal(items) == 0 + m * -q;
    ShiftMod(0, -q);
  }

  /** In range, no intermediate product or partial sum overflows either. */
  lemma {:induction false} PartialTotalsInRange(items: seq<OrderItem>, n: nat)
    requires ValidItems(items) && n <= |items| && MathTotal(items) <= MAX_INT64
    ensures 0 <= MathTotal(items[..n]) <= MathTotal(items)
    ensures n < |items| ==> 0 <= items[n].unitPrice * items[n].quantity <= MAX_INT64
    decreases |items|
  {
    if n == |items| {
      assert items[..n] == items;
      MathTotalNonNegative(items);
    } else {
      var front := items[..|items| - 1];
      ProductNonNegative(items[|items| - 1]);
      MathTotalNonNegative(front);
      PartialTotalsInRange(front, n);
      assert front[..n] == items[..n];
    }
  }

  // ---------- the aggregate ----------

  class Order {
    var id: string
    var customerId: string
    var items: seq<OrderItem>
    var status: OrderStatus
    var createdAt: int
    var paymentReference: string
    var events: seq<Event>

    function Data(): OrderData
      reads this
    {
      OrderData(id, customerId, items, status, createdAt, paymentReference)
    }

    /** An object holding the given stored fields and buffered events. */
    constructor Of(data: OrderData, buffer: seq<Event>)
      ensures Data() == data && events == buffer
    {
      id, customerId, items := data.id, data.customerId, data.items;
      status, createdAt, paymentReference := data.status, data.createdAt, data.paymentReference;
      events := buffer;
    }

    static method NewOrder(id: string, customerId: string, items: seq<OrderItem>, createdAt: int)
      returns (o: Order?, err: Error)
      ensures err == Validation(customerId, items)
      ensures (o != null) == (err == Nil)
      ensures customerId == "" ==> err == {EmptyCustomer}
      ensures customerId != "" && |items| == 0 ==> err == {EmptyOrder}
      ensures customerId != "" && |items| > 0 && err != Nil ==> err == {InvalidOrderItem}
      ensures err == Nil <==> customerId != "" && |items| > 0 &&
                              forall i :: 0 <= i < |items| ==>
                                items[i].productId != "" && items[i].quantity >= 1 && items[i].unitPrice >= 0
      ensures o != null ==> fresh(o)
      ensures o != null ==>
                o.events == [Event("order.created", createdAt, map["order_id" := Text(id), "item_count" := Number(|items|)])]
      ensures o != null ==> o.Data() == OrderData(id, customerId, items, Pending, createdAt, "")
    {
      if customerId == "" { return null, {EmptyCustomer}; }
      if |items| == 0 { return null, {EmptyOrder}; }
      for i := 0 to |items|
        invariant forall j :: 0 <= j < i ==> ValidItem(items[j])
      {
        if items[i].productId == "" || items[i].quantity <= 0 || items[i].unitPrice < 0 {
          return null, {InvalidOrderItem};
        }
      }
      o := new Order.Of(OrderData(id, customerId, items, Pending, createdAt, ""), []);
      o.Record(Event("order.created", createdAt, map["order_id" := Text(id), "item_count" := Number(|items|)]));
      err := Nil;
    }

    method Total() returns (total: int64)
      ensures total == TotalCents(items)
    {
      total := 0;
      for i := 0 to |items|
        invariant total == Wrap(MathTotal(items[..i]))
      {
        var product := Wrap(items[i].unitPrice * items[i].quantity);
        WrapAbsorbs(MathTotal(items[..i]), items[i].unitPrice * items[i].quantity);
        assert items[..i + 1][..i] == items[..i];
        total := Wrap(total + product);
      }
      assert items[..|items|] == items;
    }

    method Record(e: Event)
      modifies `events
      ensures events == old(events) + [e]
    {
      events := events + [e];
    }

    method PullEvents() returns (pulled: seq<Event>)
      modifies `events
      ensures pulled == old(events) && events == []
    {
      pulled := events;
      events := [];
    }

    method MarkPaid(paidAt: int, reference: string) returns (err: Error)
      modifies `status, `paymentReference, `events
      ensures err == if CanMark(old(status), Pay(reference)) then Nil else {OrderNotPending}
      ensures err == Nil ==> Data() == Marked(old(Data()), Pay(reference))
      ensures err == Nil ==> events == old(events) + [Event("order.paid", paidAt, map["order_id" := Text(id)])]
      ensures err != Nil ==> Data() == old(Data()) && events == old(events)
    {
      if status != Pending && status != PaymentUnknown { return {OrderNotPending}; }
      status := Paid;
      paymentReference := reference;
      Record(Event("order.paid", paidAt, map["order_id" := Text(id)]));
      err := Nil;
    }

    method MarkFailed(failedAt: int, reason: string) returns (err: Error)
      modifies `status, `events
      ensures err == if CanMark(old(status), Fail) then Nil else {OrderNotPending}
      ensures err == Nil ==> Data() == Marked(old(Data()), Fail)
      ensures err == Nil ==>
                events == old(events) + [Event("order.failed", failedAt, map["order_id" := Text(id), "reason" := Text(reason)])]
      ensures err != Nil ==> Data() == old(Data()) && events == old(events)
    {
      if status != Pending && status != PaymentUnknown { return {OrderNotPending}; }
      status := Failed;
      Record(Event("order.failed", failedAt, map["order_id" := Text(id), "reason" := Text(reason)]));
      err := Nil;
    }

    method MarkPaymentUnknown(at: int, reason: string) returns (err: Error)
      modifies `status, `events
      ensures err == if CanMark(old(status), Doubt) then Nil else {OrderNotPending}
      ensures err == Nil ==> Data() == Marked(old(Data()), Doubt)
      ensures err == Nil ==>
                events == old(events) + [Event("order.payment_unknown", at, map["order_id" := Text(id), "reason" := Text(reason)])]
      ensures err != Nil ==> Data() == old(Data()) && events == old(events)
    {
      if status != Pending { return {OrderNotPending}; }
      status := PaymentUnknown;
      Record(Event("order.payment_unknown", at, map["order_id" := Text(id), "reason" := Text(reason)]));
      err := Nil;
    }

    method MarkFulfillmentPending(at: int, reason: string) returns (err: Error)
      modifies `status, `events
      ensures err == if CanMark(old(status), Defer) then Nil else {OrderNotPaid}
      ensures err == Nil ==> Data() == Marked(old(Data()), Defer)
      ensures err == Nil ==>
                events == old(events) + [Event("order.fulfillment_pending", at, map["order_id" := Text(id), "reason" := Text(reason)])]
      ensures err != Nil ==> Data() == old(Data()) && events == old(events)
    {
      if status != Paid { return {OrderNotPaid}; }
      status := FulfillmentPending;
      Record(Event("order.fulfillment_pending", at, map["order_id" := Text(id), "reason" := Text(reason)]));
      err := Nil;
    }

    method Complete(completedAt: int) returns (err: Error)
      modifies `status, `events
      ensures err == if CanMark(old(status), Finish) then Nil else {OrderNotPaid}
      ensures err == Nil ==> Data() == Marked(old(Data()), Finish)
      ensures err == Nil ==> events == old(events) + [Event("order.completed", completedAt, map["order_id" := Text(id)])]
      ensures err != Nil ==> Data() == old(Data()) && events == old(events)
    {
      if status != Paid && status != FulfillmentPending { return {OrderNotPaid}; }
      status := Completed;
      Record(Event("order.completed", completedAt, map["order_id" := Text(id)]));
      err := Nil;
    }
  }
}
