/** The HTTP boundary of order creation. */
module Http {
  import opened Common
  import opened Domain
  import opened Payment
  import opened Protocol
  import opened ProtocolInvariant
  import opened Guarantees
  import opened Settlement
  import opened Worlds
  import opened CreateOrder

  datatype JsonItem = JsonItem(productId: string, quantity: int64, unitPrice: int64)

  datatype JsonRequest = JsonRequest(customerId: string, customerTier: string, items: seq<JsonItem>)

  /** A line of a request that can be ordered. */
  predicate Orderable(item: JsonItem) { item.productId != "" && item.quantity >= 1 && item.unitPrice >= 0 }

  /** The order that a request asks for, field by field. */
  ghost predicate Requested(o: OrderData, request: JsonRequest, id: string, now: int) {
    && o.id == id && o.customerId == request.customerId && o.status == Pending
    && o.createdAt == now && o.paymentReference == "" && Decoded(o.items, request.items)
  }

  ghost predicate Decoded(items: seq<OrderItem>, json: seq<JsonItem>) {
    && |items| == |json|
    && forall i :: 0 <= i < |json| ==>
         items[i].productId == json[i].productId && items[i].quantity == json[i].quantity
         && items[i].unitPrice == json[i].unitPrice
  }

  class Handler {
    const createOrder: Interactor

    constructor (createOrder: Interactor)
      ensures this.createOrder == createOrder
    {
      this.createOrder := createOrder;
    }

    /** Serves one request; an absent body is one that could not be decoded.  A request that got as
        far as its insert is worker `me`, and whatever happens afterwards: a response other than 201
        and 202 means the charge it sent, if any, is refused for good. */
    method Serve(body: Option<JsonRequest>, entropy: Option<string>, now: int) returns (code: int, ghost me: Option<nat>)
      requires createOrder.world.Valid()
      modifies createOrder.world
      ensures createOrder.world.Valid() && old(createOrder.world.trace) <= createOrder.world.trace
      ensures me.None? ==> (code == 400 || code == 500) && createOrder.world.s == old(createOrder.world.s)
      ensures code == 400 <==>
                || body.None? || body.value.customerTier !in {"", "free", "premium"}
                || (entropy.Some? && (body.value.customerId == "" || |body.value.items| == 0 ||
                                      exists i :: 0 <= i < |body.value.items| && !Orderable(body.value.items[i])))
      ensures me.Some? ==>
                && body.Some? && entropy.Some?
                && me.value < |createOrder.world.s.workers| && createOrder.world.s.workers[me.value].pc.Returned?
                && (exists o :: Requested(o, body.value, "ord_" + entropy.value, now)
                                && Protocol.Submit(o) in createOrder.world.trace[|old(createOrder.world.trace)|..]
                                && (createOrder.world.quiet && old(At(createOrder.world.s, o.id)).row.None? ==>
                                      ServedAlone(o, createOrder.world.env, At(createOrder.world.s, o.id),
                                                  createOrder.world.s.workers[me.value].pc)))
                && code in {201, 202, 402, 500, 502}
                && code == HttpStatusOf(createOrder.world.s.workers[me.value].pc.result, createOrder.world.s.workers[me.value].pc.err)
      ensures me.Some? ==>
                forall more :: Legal(INIT, createOrder.world.trace + more) ==>
                  var later := At(Exec(INIT, createOrder.world.trace + more), createOrder.world.s.workers[me.value].id);
                  ChargedBy(later, me.value) && code !in {201, 202} ==> Refused(later.decision)
    {
      hide ServedAlone;
      if body.None? { return 400, None; }
      var items: seq<OrderItem> := [];
      for i := 0 to |body.value.items|
        invariant items == Items(body.value.items[..i])
      {
        var item := body.value.items[i];
        assert body.value.items[..i + 1][..i] == body.value.items[..i];
        items := items + [OrderItem(item.productId, item.quantity, item.unitPrice)];
      }
      assert body.value.items[..|body.value.items|] == body.value.items;
      var order, err;
      var req := Request(body.value.customerId, body.value.customerTier, items);
      ItemsAreDecoded(body.value.items);
      order, err, me := createOrder.Execute(Some(req), entropy, now);
      if me.Some? {
        assert Requested(OrderData("ord_" + entropy.value, req.customerId, req.items, Pending, now, ""), body.value,
                         "ord_" + entropy.value, now);
      }
      if me.Some? { KnownOutcome(createOrder.world.trace, me.value); }
      code := Respond(order, err);
    }

    /** The switch over the outcome. */
    method Respond(order: Order?, err: Error) returns (code: int)
      requires err == Nil ==> order != null
      ensures code == HttpStatusOf(DataOf(order), err)
      ensures err == Nil ==> code == if order.status == Failed then 402 else 201
      ensures err != Nil && order != null && (PaymentUncertain in err || FulfillmentPendingError in err) ==> code == 202
      ensures (err != Nil && order != null && PaymentUncertain !in err && FulfillmentPendingError !in err
               && PaymentRejected in err) ==> code == 502
      ensures err != Nil && order == null ==>
                code == if NilRequest in err || InvalidCustomerTier in err || EmptyCustomer in err
                           || EmptyOrder in err || InvalidOrderItem in err then 400 else 500
    {
      if err != Nil {
        if (PaymentUncertain in err || FulfillmentPendingError in err) && order != null { return 202; }
        if PaymentRejected in err && order != null { return 502; }
        if IsValidationError(err) { return 400; }
        return 500;
      }
      code := 201;
      if order.status == Failed { code := 402; }
    }
  }

  function Items(items: seq<JsonItem>): seq<OrderItem> {
    if items == [] then []
    else Items(items[..|items| - 1])
         + [OrderItem(items[|items| - 1].productId, items[|items| - 1].quantity, items[|items| - 1].unitPrice)]
  }

  lemma {:induction false} ItemsAreDecoded(json: seq<JsonItem>)
    ensures Decoded(Items(json), json)
    decreases |json|
  {
    if json != [] { ItemsAreDecoded(json[..|json| - 1]); }
  }

  /** Whatever follows, the response of a finished request stays right. */
  lemma KnownOutcome(run: seq<Move>, w: nat)
    requires Legal(INIT, run) && w < |Exec(INIT, run).workers| && Exec(INIT, run).workers[w].pc.Returned?
    ensures var x := Exec(INIT, run).workers[w];
            var code := HttpStatusOf(x.pc.result, x.pc.err);
            && (x.pc.err == Nil ==> x.pc.result.Some?)
            && code in {201, 202, 402, 500, 502}
            && forall more :: Legal(INIT, run + more) ==>
                 var later := At(Exec(INIT, run + more), x.id);
                 ChargedBy(later, w) && code !in {201, 202} ==> Refused(later.decision)
  {
    ResultsAreTruthful(run, w);
    assert run + [] == run;
    NoUnresolvedOutcomeLeaks(run, [], w);
    forall more | Legal(INIT, run + more)
      ensures var x := Exec(INIT, run).workers[w];
              var later := At(Exec(INIT, run + more), x.id);
              ChargedBy(later, w) && HttpStatusOf(x.pc.result, x.pc.err) !in {201, 202} ==> Refused(later.decision)
    {
      NoUnresolvedOutcomeLeaks(run, more, w);
    }
  }
}
