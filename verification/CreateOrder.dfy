/** The foreground half of the protocol: Execute, saveTransition and the event boundary. */
module CreateOrder {
  import opened Common
  import opened Domain
  import opened Payment
  import opened Orders
  import opened Protocol
  import opened ProtocolInvariant
  import opened Guarantees
  import opened Settlement
  import opened Worlds

  datatype Request = Request(customerId: string, customerTier: string, items: seq<OrderItem>)

  predicate KnownTier(tier: string) { tier == "" || tier == "free" || tier == "premium" }

  /** A copy sharing nothing with the original; its buffer is the original's. */
  method CloneOrder(o: Order) returns (copy: Order)
    ensures fresh(copy) && copy.Data() == o.Data() && copy.events == o.events
  {
    copy := new Order.Of(o.Data(), o.events);
  }

  /** Drains the buffer into the log.  A buffer holding the one event of the state just committed is
      announced exactly once. */
  method EmitDomainEvents(world: World, me: nat, ghost x: Worker, o: Order)
    requires world.Valid() && world.Runs(me, x) && x.pc.Announcing? && x.pc.order == o.Data()
    requires |o.events| == 1 && o.events[0].name == EventName(o.status)
    modifies world, o`events
    ensures world.Valid() && old(world.trace) <= world.trace && o.events == []
    ensures world.Runs(me, x.(pc := AfterAnnounce(x.side, x.pc.order, x.pc.goal)))
    ensures world.quiet ==> Alongside(old(world.s), world.s, me, world.env)
  {
    var pulled := o.PullEvents();
    for i := 0 to |pulled|
      invariant world.Valid() && old(world.trace) <= world.trace && o.events == []
      invariant world.Runs(me, if i == 0 then x else x.(pc := AfterAnnounce(x.side, x.pc.order, x.pc.goal)))
      invariant i == 0 ==> world.s == old(world.s)
      invariant i == 1 && world.quiet ==> Alongside(old(world.s), world.s, me, world.env)
    {
      world.Log(me, x, pulled[i].name);
    }
  }

  /** Wrapping what SaveTransition returned gives the error the protocol records. */
  lemma WrappedErrors(saveErr: Error)
    requires saveErr == {Port} || saveErr == {ConcurrentStateChange} || saveErr == {ConcurrentStateChange, Port}
    ensures saveErr == {Port} ==>
              && {PaymentUncertain} + saveErr == WriteError(ApprovedCharge)
              && {PaymentRejected, Port} + saveErr == WriteError(Refusal)
              && {PaymentUncertain, Port} + saveErr == WriteError(Unclear)
              && {FulfillmentPendingError} + saveErr == WriteError(Fulfilled)
    ensures ConcurrentStateChange in saveErr ==>
              && {PaymentUncertain} + saveErr == ConflictError(Unclear, Port !in saveErr)
              && {FulfillmentPendingError} + saveErr == ConflictError(Fulfilled, Port !in saveErr)
  {
  }

  /** A request left alone until it has ended served its order, or was refused because of its ID. */
  lemma RequestEnded(trace: seq<Move>, start: State, end: State, me: nat, o: OrderData, env: Env)
    requires Legal(INIT, trace) && Fresh(o) && Sound(env) && Alongside(start, end, me, env)
    requires start.workers[me] == Worker(o.id, Foreground, Inserting(o), false) && Done(end.workers[me])
    requires At(start, o.id) == At(Exec(INIT, trace), o.id)
    ensures if At(start, o.id).row.None? then ServedAlone(o, env, At(end, o.id), end.workers[me].pc)
            else At(end, o.id) == At(start, o.id) && end.workers[me].pc == Returned(None, {Port})
  {
    hide CellInv, ServedAlone;
    Reached(trace, o.id);
    DoneLeftAlone(At(end, o.id), me, end.workers[me], env);
    if At(start, o.id).row.None? {
      UnknownIdIsUntouched(At(start, o.id), o.id);
      RequestLeftAlone(o, At(start, o.id), me, env);
    } else {
      TakenIdLeftAlone(o, At(start, o.id), me, env);
    }
  }

  class Interactor {
    const world: World

    constructor (world: World)
      ensures this.world == world
    {
      this.world := world;
    }

    /** Writes next over previous unless the row has moved; on a conflict the durable row is
        returned instead. */
    method SaveTransition(me: nat, ghost x: Worker, previous: Order, next: Order) returns (saved: Order, err: Error)
      requires world.Valid() && world.Runs(me, x) && x.side == Foreground
      requires x.pc.Writing? && x.pc.previous == previous.Data() && x.pc.next == next.Data()
      requires previous != next && x.id == previous.id
      requires |next.events| == 1 && next.events[0].name == EventName(next.status)
      modifies world, next`events
      ensures world.Valid() && old(world.trace) <= world.trace
      ensures err == Nil ==> saved == next && next.events == []
                             && world.Runs(me, x.(pc := AfterAnnounce(Foreground, next.Data(), x.pc.goal)))
      ensures err == {Port} ==> saved == previous
                                && world.Runs(me, x.(pc := Returned(Some(saved.Data()), WriteError(x.pc.goal))))
      ensures ConcurrentStateChange in err ==>
                && (err == {ConcurrentStateChange} || err == {ConcurrentStateChange, Port})
                && world.Runs(me, x.(pc := Returned(Some(saved.Data()), ConflictError(x.pc.goal, Port !in err))))
      ensures err == Nil || err == {Port} || ConcurrentStateChange in err
      ensures world.quiet ==> Alongside(old(world.s), world.s, me, world.env)
    {
      hide Alongside, Legal, Exec;
      var updated, saveErr := world.SaveIfStatus(me, x, next, previous.status);
      ghost var mid := world.s;
      if saveErr != Nil { return previous, saveErr; }
      if !updated {
        ghost var x1 := x.(pc := Reloading(x.pc.previous, x.pc.goal));
        var current, findErr := world.FindByID(me, x1, previous.id);
        if world.quiet { AlongsideCompose(old(world.s), mid, world.s, me, world.env); }
        if findErr != Nil { return previous, {ConcurrentStateChange} + findErr; }
        return current, {ConcurrentStateChange};
      }
      EmitDomainEvents(world, me, x.(pc := Announcing(next.Data(), x.pc.goal)), next);
      if world.quiet { AlongsideCompose(old(world.s), mid, world.s, me, world.env); }
      return next, Nil;
    }

    /** The caller gets what the protocol records as this worker's result; a request refused before
        its insert leaves no worker and no trace. */
    method Execute(req: Option<Request>, entropy: Option<string>, now: int)
      returns (result: Order?, err: Error, ghost me: Option<nat>)
      requires world.Valid()
      modifies world
      ensures world.Valid() && old(world.trace) <= world.trace
      ensures me.None? <==>
                || req.None? || req.value.customerTier !in {"", "free", "premium"} || entropy.None?
                || Validation(req.value.customerId, req.value.items) != Nil
      ensures me.None? ==> result == null && world.s == old(world.s) &&
                           err == if req.None? then {NilRequest}
                                  else if req.value.customerTier !in {"", "free", "premium"} then {InvalidCustomerTier}
                                  else if entropy.None? then {Port}
                                  else Validation(req.value.customerId, req.value.items)
      ensures me.Some? ==> |old(world.s.workers)| <= me.value < |world.s.workers|
                           && world.s.workers[me.value].id == "ord_" + entropy.value
                           && world.s.workers[me.value].pc == Returned(DataOf(result), err)
      ensures me.Some? ==>
                Protocol.Submit(OrderData("ord_" + entropy.value, req.value.customerId, req.value.items, Pending, now, ""))
                in world.trace[|old(world.trace)|..]
      ensures me.Some? && world.quiet ==>
                var id, o := "ord_" + entropy.value,
                             OrderData("ord_" + entropy.value, req.value.customerId, req.value.items, Pending, now, "");
                if old(At(world.s, id)).row.None?
                then ServedAlone(o, world.env, At(world.s, id), Returned(DataOf(result), err))
                else result == null && err == {Port} && At(world.s, id) == old(At(world.s, id))
    {
      hide Alongside, ServedAlone, Legal, Exec;
      me := None;
      if req.None? { return null, {NilRequest}, None; }
      if !KnownTier(req.value.customerTier) { return null, {InvalidCustomerTier}, None; }
      if entropy.None? { return null, {Port}, None; }
      var order, invalid := Order.NewOrder("ord_" + entropy.value, req.value.customerId, req.value.items, now);
      if invalid != Nil { return null, invalid, None; }

      var w, x := world.Submit(order);
      me := Some(w);
      ghost var submitted, start := |world.trace| - 1, world.s;
      var saveErr := world.Save(w, x, order);
      if saveErr != Nil {
        assert world.trace[|old(world.trace)|..][submitted - |old(world.trace)|] == world.trace[submitted];
        if world.quiet { RequestEnded(old(world.trace), start, world.s, w, x.pc.order, world.env); }
        return null, saveErr, me;
      }
      ghost var saved := world.s;
      EmitDomainEvents(world, w, x.(pc := Announcing(order.Data(), Created)), order);
      ghost var announced := world.s;
      result, err := ChargeAndFulfil(w, x.(pc := SendingCharge(order.Data())), order, now);
      if world.quiet {
        AlongsideCompose(start, saved, announced, w, world.env);
        AlongsideCompose(start, announced, world.s, w, world.env);
        RequestEnded(old(world.trace), start, world.s, w, x.pc.order, world.env);
      }
      assert world.trace[|old(world.trace)|..][submitted - |old(world.trace)|] == world.trace[submitted];
    }

    /** From the durable pending row on. */
    method ChargeAndFulfil(me: nat, ghost x: Worker, order: Order, now: int) returns (result: Order, err: Error)
      requires world.Valid() && world.Runs(me, x) && x.side == Foreground && x.pc == SendingCharge(order.Data())
      requires order.status == Pending && order.events == [] && x.id == order.id
      modifies world
      ensures world.Valid() && old(world.trace) <= world.trace
      ensures world.Runs(me, x.(pc := Returned(Some(result.Data()), err)))
      ensures world.quiet ==> Alongside(old(world.s), world.s, me, world.env)
    {
      hide Alongside, Legal, Exec;
      var amount := order.Total();
      var reply := world.Charge(me, x, order.id, order.customerId, amount);
      ghost var x1 := x.(pc := AfterCharge(order.Data(), reply));
      ghost var mid := world.s;
      if reply.ChargeFailed? {
        result, err := SettleChargeError(me, x1, order, reply.error, now);
      } else if reply.result.status == "declined" {
        result, err := SettleDecline(me, x1, order, now);
      } else if reply.result.status == "approved" {
        result, err := SettleApproval(me, x1, order, reply.result.reference, now);
      } else {
        result, err := SettleBadStatus(me, x1, order, now);
      }
      if world.quiet { AlongsideCompose(old(world.s), mid, world.s, me, world.env); }
    }

    method SettleDecline(me: nat, ghost x: Worker, order: Order, now: int) returns (result: Order, err: Error)
      requires world.Valid() && world.Runs(me, x) && x.side == Foreground && x.id == order.id
      requires x.pc == Writing(order.Data(), Marked(order.Data(), Fail), DeclinedCharge)
      requires order.status == Pending && order.events == []
      modifies world
      ensures world.Valid() && old(world.trace) <= world.trace
      ensures world.Runs(me, x.(pc := Returned(Some(result.Data()), err)))
      ensures world.quiet ==> Alongside(old(world.s), world.s, me, world.env)
    {
      hide Alongside, Legal, Exec;
      var failedOrder := CloneOrder(order);
      var markErr := failedOrder.MarkFailed(now, "payment_declined");
      assert markErr == Nil;
      result, err := SaveTransition(me, x, order, failedOrder);
      if ConcurrentStateChange in err {
        WrappedErrors(err);
        err := {PaymentUncertain} + err;
      }
    }

    method SettleApproval(me: nat, ghost x: Worker, order: Order, reference: string, now: int)
      returns (result: Order, err: Error)
      requires world.Valid() && world.Runs(me, x) && x.side == Foreground && x.id == order.id
      requires x.pc == Writing(order.Data(), Marked(order.Data(), Pay(reference)), ApprovedCharge)
      requires order.status == Pending && order.events == []
      modifies world
      ensures world.Valid() && old(world.trace) <= world.trace
      ensures world.Runs(me, x.(pc := Returned(Some(result.Data()), err)))
      ensures world.quiet ==> Alongside(old(world.s), world.s, me, world.env)
    {
      hide Alongside, Legal, Exec;
      var paidOrder := CloneOrder(order);
      var markErr := paidOrder.MarkPaid(now, reference);
      assert markErr == Nil;
      var saved, saveErr := SaveTransition(me, x, order, paidOrder);
      ghost var mid := world.s;
      if saveErr != Nil {
        WrappedErrors(saveErr);
        return saved, {PaymentUncertain} + saveErr;
      }
      result, err := Fulfil(me, x.(pc := Reserving(saved.Data())), saved, now);
      if world.quiet { AlongsideCompose(old(world.s), mid, world.s, me, world.env); }
    }

    /** A status that is neither known word is not taken for a decline. */
    method SettleBadStatus(me: nat, ghost x: Worker, order: Order, now: int) returns (result: Order, err: Error)
      requires world.Valid() && world.Runs(me, x) && x.side == Foreground && x.id == order.id
      requires x.pc == Writing(order.Data(), Marked(order.Data(), Doubt), BadStatus)
      requires order.status == Pending && order.events == []
      modifies world
      ensures world.Valid() && old(world.trace) <= world.trace
      ensures world.Runs(me, x.(pc := Returned(Some(result.Data()), err)))
      ensures world.quiet ==> Alongside(old(world.s), world.s, me, world.env)
    {
      hide Alongside, Legal, Exec;
      var unknownOrder := CloneOrder(order);
      var markErr := unknownOrder.MarkPaymentUnknown(now, "invalid_provider_status");
      assert markErr == Nil;
      result, err := SaveTransition(me, x, order, unknownOrder);
      if err != Nil { WrappedErrors(err); }
      assert {PaymentUncertain} + Nil == {PaymentUncertain};
      err := {PaymentUncertain} + err;
    }

    /** A charge that returned an error: unknown when it may have been made, failed when it cannot. */
    method SettleChargeError(me: nat, ghost x: Worker, order: Order, chargeErr: PaymentError, now: int)
      returns (result: Order, err: Error)
      requires world.Valid() && world.Runs(me, x) && x.side == Foreground && x.id == order.id
      requires x.pc == AfterCharge(order.Data(), ChargeFailed(chargeErr))
      requires order.status == Pending && order.events == []
      modifies world
      ensures world.Valid() && old(world.trace) <= world.trace
      ensures world.Runs(me, x.(pc := Returned(Some(result.Data()), err)))
      ensures world.quiet ==> Alongside(old(world.s), world.s, me, world.env)
    {
      hide Alongside, Legal, Exec;
      var outcomeErr: Error;
      var outcomeOrder := CloneOrder(order);
      var markErr: Error;
      if OutcomeMayHaveCommitted(chargeErr) {
        markErr := outcomeOrder.MarkPaymentUnknown(now, "ambiguous_provider_error");
        outcomeErr := {PaymentUncertain, Port};
      } else {
        markErr := outcomeOrder.MarkFailed(now, "payment_request_rejected");
        outcomeErr := {PaymentRejected, Port};
      }
      assert markErr == Nil;
      var saved, saveErr := SaveTransition(me, x, order, outcomeOrder);
      if saveErr != Nil {
        WrappedErrors(saveErr);
        if ConcurrentStateChange in saveErr { return saved, {PaymentUncertain} + saveErr; }
        return saved, outcomeErr + saveErr;
      }
      return saved, outcomeErr;
    }

    /** From the durable paid row on. */
    method Fulfil(me: nat, ghost x: Worker, order: Order, now: int) returns (result: Order, err: Error)
      requires world.Valid() && world.Runs(me, x) && x.side == Foreground && x.pc == Reserving(order.Data())
      requires order.status == Paid && order.events == [] && x.id == order.id
      modifies world
      ensures world.Valid() && old(world.trace) <= world.trace
      ensures world.Runs(me, x.(pc := Returned(Some(result.Data()), err)))
      ensures world.quiet ==> Alongside(old(world.s), world.s, me, world.env)
    {
      hide Alongside, Legal, Exec;
      var reserveErr := world.Reserve(me, x, order.id, order.items);
      ghost var x1 := x.(pc := AfterReserve(Foreground, order.Data(), reserveErr == Nil));
      ghost var mid := world.s;
      if reserveErr != Nil {
        result, err := Defer(me, x1, order, reserveErr, now);
      } else {
        result, err := Complete(me, x1, order, now);
      }
      if world.quiet { AlongsideCompose(old(world.s), mid, world.s, me, world.env); }
    }

    method Defer(me: nat, ghost x: Worker, order: Order, reserveErr: Error, now: int) returns (result: Order, err: Error)
      requires world.Valid() && world.Runs(me, x) && x.side == Foreground && x.id == order.id && reserveErr == {Port}
      requires x.pc == Writing(order.Data(), Marked(order.Data(), Mark.Defer), Unreserved)
      requires order.status == Paid && order.events == []
      modifies world
      ensures world.Valid() && old(world.trace) <= world.trace
      ensures world.Runs(me, x.(pc := Returned(Some(result.Data()), err)))
      ensures world.quiet ==> Alongside(old(world.s), world.s, me, world.env)
    {
      hide Alongside, Legal, Exec;
      var pendingOrder := CloneOrder(order);
      var markErr := pendingOrder.MarkFulfillmentPending(now, "inventory_reservation_error");
      assert markErr == Nil;
      var saved, saveErr := SaveTransition(me, x, order, pendingOrder);
      // The reservation error is only formatted, not wrapped, when the save failed as well.
      if saveErr != Nil {
        WrappedErrors(saveErr);
        return saved, {FulfillmentPendingError} + saveErr;
      }
      err := {FulfillmentPendingError} + reserveErr;
      assert err == {FulfillmentPendingError, Port};
      return saved, err;
    }

    method Complete(me: nat, ghost x: Worker, order: Order, now: int) returns (result: Order, err: Error)
      requires world.Valid() && world.Runs(me, x) && x.side == Foreground && x.id == order.id
      requires x.pc == Writing(order.Data(), Marked(order.Data(), Finish), Fulfilled)
      requires order.status == Paid && order.events == []
      modifies world
      ensures world.Valid() && old(world.trace) <= world.trace
      ensures world.Runs(me, x.(pc := Returned(Some(result.Data()), err)))
      ensures world.quiet ==> Alongside(old(world.s), world.s, me, world.env)
    {
      hide Alongside, Legal, Exec;
      var completedOrder := CloneOrder(order);
      var markErr := completedOrder.Complete(now);
      assert markErr == Nil;
      result, err := SaveTransition(me, x, order, completedOrder);
      if err != Nil {
        WrappedErrors(err);
        err := {FulfillmentPendingError} + err;
      }
    }
  }
}
