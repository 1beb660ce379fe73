/** The recovery half of the protocol: the reconciliation of one order, and the batch loop with its
    wrapping cursor. */
module Reconciling {
  import opened Common
  import opened Domain
  import opened Payment
  import opened Orders
  import opened Protocol
  import opened ProtocolInvariant
  import opened ProtocolRuns
  import opened Guarantees
  import opened Settlement
  import opened Sweep
  import opened Worlds
  import opened CreateOrder

  /** The orders visited between s and t were settled, all others were left as they were. */
  ghost predicate SettledFrom(s: State, t: State, visited: set<Id>, env: Env) {
    forall k ::
      if k in visited && At(s, k).row.Some?
      then At(t, k).row == Some(SettledRow(At(s, k).row.value, At(s, k).decision, env)) && SameOutside(At(s, k), At(t, k))
      else k !in visited ==> At(t, k) == At(s, k)
  }

  /** A listing saw the table as it was at some moment of the interleaving. */
  datatype Moment = Moment(length: nat, state: State, olderThan: int)

  function CandidatesAt(m: Moment): set<Id> { Eligible(Table(m.state), m.olderThan) }

  ghost predicate OnTrace(trace: seq<Move>, m: Moment) {
    m.length <= |trace| && Legal(INIT, trace[..m.length]) && m.state == Exec(INIT, trace[..m.length])
  }

  /** Every listing followed the cursor, and its candidates are those of the table at its moment. */
  ghost predicate Recorded(listings: seq<Listing>, moments: seq<Moment>, batch: nat, trace: seq<Move>)
    decreases |listings|
  {
    && |moments| == |listings|
    && (listings == [] ||
        var front, l := listings[..|listings| - 1], listings[|listings| - 1];
        && l.after == CursorOf(front) && l.page == Page(l.eligible, l.after, batch)
        && l.eligible == CandidatesAt(moments[|listings| - 1]) && OnTrace(trace, moments[|listings| - 1])
        && Recorded(front, moments[..|listings| - 1], batch, trace))
  }

  /** What the record says about each of its listings. */
  lemma {:induction false} RecordedListing(listings: seq<Listing>, moments: seq<Moment>, batch: nat, trace: seq<Move>, i: nat)
    requires Recorded(listings, moments, batch, trace) && i < |listings|
    ensures |moments| == |listings| && OnTrace(trace, moments[i]) && listings[i].eligible == CandidatesAt(moments[i])
    ensures listings[i].after == CursorOf(listings[..i])
    ensures listings[i].page == Page(listings[i].eligible, listings[i].after, batch)
    decreases |listings|
  {
    hide Page, OnTrace, CandidatesAt;
    var n := |listings| - 1;
    if i < n {
      RecordedListing(listings[..n], moments[..n], batch, trace, i);
      assert listings[..n][..i] == listings[..i];
    }
  }

  /** So the record is a trace of the cursor, to which FairSweep applies. */
  lemma {:induction false} RecordedIsGoodTrace(listings: seq<Listing>, moments: seq<Moment>, batch: nat, trace: seq<Move>)
    requires Recorded(listings, moments, batch, trace)
    ensures GoodTrace(listings, batch)
  {
    hide Page, Recorded;
    forall i | 0 <= i < |listings|
      ensures listings[i].page == Page(listings[i].eligible, listings[i].after, batch)
      ensures listings[i].after == CursorOf(listings[..i])
    {
      RecordedListing(listings, moments, batch, trace, i);
    }
  }

  lemma {:induction false} RecordStays(listings: seq<Listing>, moments: seq<Moment>, batch: nat, trace: seq<Move>, longer: seq<Move>)
    requires Recorded(listings, moments, batch, trace) && trace <= longer
    ensures Recorded(listings, moments, batch, longer)
    decreases |listings|
  {
    if listings != [] {
      var n := |listings| - 1;
      RecordStays(listings[..n], moments[..n], batch, trace, longer);
      assert longer[..moments[n].length] == trace[..moments[n].length];
    }
  }

  lemma VisitedExtends(tr: seq<Listing>, l: Listing)
    ensures Visited(tr + [l]) == Visited(tr) + l.page && CursorOf(tr + [l]) == CursorAfter("", l.page)
  {
    assert (tr + [l])[..|tr|] == tr;
  }

  lemma RecordListing(listings: seq<Listing>, moments: seq<Moment>, batch: nat, trace: seq<Move>, after: Id, page: seq<Id>, m: Moment)
    requires Recorded(listings, moments, batch, trace) && Legal(INIT, trace)
    requires m.length == |trace| && m.state == Exec(INIT, trace)
    requires after == CursorOf(listings) && page == Page(CandidatesAt(m), after, batch)
    ensures var ls := listings + [Listing(CandidatesAt(m), after, page)];
            && Recorded(ls, moments + [m], batch, trace)
            && Visited(ls) == Visited(listings) + page && CursorOf(ls) == CursorAfter("", page) && Ascending(page)
  {
    var l := Listing(CandidatesAt(m), after, page);
    assert (listings + [l])[..|listings|] == listings && (moments + [m])[..|listings|] == moments;
    assert trace[..|trace|] == trace;
    VisitedExtends(listings, l);
    PageIsNextCandidates(l.eligible, after, batch);
  }

  /** Worker w reconciled order id and has finished. */
  ghost predicate Ran(trace: seq<Move>, w: nat, id: Id) {
    && Legal(INIT, trace) && w < |Exec(INIT, trace).workers|
    && var x := Exec(INIT, trace).workers[w];
       x.id == id && x.side == Recovery && x.pc.Finished?
  }

  /** Every attempt was a reconciliation of its order by a worker of its own, one after the other. */
  ghost predicate AllRan(trace: seq<Move>, runs: seq<nat>, ids: seq<Id>) {
    && |runs| == |ids|
    && (forall i :: 0 <= i < |runs| ==> Ran(trace, runs[i], ids[i]))
    && (forall i, j :: 0 <= i < j < |runs| ==> runs[i] < runs[j])
  }

  ghost predicate NoneFailed(s: State, runs: seq<nat>, lo: nat) {
    forall i :: lo <= i < |runs| ==> runs[i] < |s.workers| && s.workers[runs[i]].pc == Finished(true)
  }

  /** The listings made since there were n asked for orders created at or before the cutoff. */
  ghost predicate SeenWith(moments: seq<Moment>, n: nat, olderThan: int) {
    forall i :: n <= i < |moments| ==> moments[i].olderThan == olderThan
  }

  /** The last of the listings made since there were n gave the page to work on: it was answered, and it
      is empty only if it started from the beginning. */
  ghost predicate ScannedOn(listings: seq<Listing>, n: nat) {
    n < |listings| && var l := listings[|listings| - 1]; l.page != [] || l.after == ""
  }

  lemma RanStays(trace: seq<Move>, longer: seq<Move>, w: nat, id: Id)
    requires Ran(trace, w, id) && trace <= longer && Legal(INIT, longer)
    ensures Ran(longer, w, id) && Exec(INIT, longer).workers[w].pc == Exec(INIT, trace).workers[w].pc
  {
    var more := longer[|trace|..];
    assert longer == trace + more;
    RunsCompose(INIT, trace, more);
    DoneStaysDone(Exec(INIT, trace), more, w);
  }

  lemma AllRanStays(trace: seq<Move>, longer: seq<Move>, runs: seq<nat>, ids: seq<Id>)
    requires AllRan(trace, runs, ids) && trace <= longer && Legal(INIT, longer)
    ensures AllRan(longer, runs, ids)
  {
    hide Ran;
    forall i | 0 <= i < |runs| ensures Ran(longer, runs[i], ids[i]) { RanStays(trace, longer, runs[i], ids[i]); }
  }

  lemma OneMoreRan(trace: seq<Move>, longer: seq<Move>, runs: seq<nat>, ids: seq<Id>, lo: nat, w: nat, id: Id)
    requires AllRan(trace, runs, ids) && trace <= longer && Legal(INIT, trace) && Legal(INIT, longer)
    requires Ran(longer, w, id) && w >= |Exec(INIT, trace).workers| && lo <= |runs|
    ensures AllRan(longer, runs + [w], ids + [id])
    ensures NoneFailed(Exec(INIT, longer), runs + [w], lo) <==>
              NoneFailed(Exec(INIT, trace), runs, lo) && Exec(INIT, longer).workers[w].pc == Finished(true)
  {
    AllRanStays(trace, longer, runs, ids);
    forall i | 0 <= i < |runs|
      ensures runs[i] < w && runs[i] < |Exec(INIT, longer).workers|
      ensures Exec(INIT, longer).workers[runs[i]].pc == Exec(INIT, trace).workers[runs[i]].pc
    {
      RanStays(trace, longer, runs[i], ids[i]);
    }
    var both := runs + [w];
    if NoneFailed(Exec(INIT, longer), both, lo) {
      assert both[|runs|] == w;
      forall i | lo <= i < |runs| ensures Exec(INIT, trace).workers[runs[i]].pc == Finished(true) { assert both[i] == runs[i]; }
    }
  }

  class Reconciler {
    const world: World
    const minAge: int
    const batchSize: nat
    var afterID: Id

    /** Every answered listing with the moment it saw, and every order attempted, oldest first. */
    ghost var listings: seq<Listing>
    ghost var moments: seq<Moment>
    ghost var attempts: seq<Id>
    /** The recovery worker of each attempt. */
    ghost var runs: seq<nat>

    ghost predicate Valid()
      reads this, world
    {
      && world.Valid() && batchSize > 0 && minAge > 0
      && Recorded(listings, moments, batchSize, world.trace)
      && attempts == Visited(listings) && AllRan(world.trace, runs, attempts)
      && afterID == CursorOf(listings)
    }

    constructor (world: World, minAge: int, batchSize: int)
      requires world.Valid()
      ensures Valid() && this.world == world && afterID == "" && attempts == []
      ensures this.minAge == if minAge <= 0 then 60 else minAge
      ensures this.batchSize == if batchSize <= 0 then 100 else batchSize
    {
      this.world := world;
      this.minAge := if minAge <= 0 then 60 else minAge;
      this.batchSize := if batchSize <= 0 then 100 else batchSize;
      afterID, listings, moments, attempts, runs := "", [], [], [], [];
    }

    /** Lists one page from the cursor and records it. */
    method ListPage(now: int) returns (ids: seq<Id>, err: Error)
      requires Valid()
      modifies this`listings, this`moments, world
      ensures world.Valid() && old(world.trace) <= world.trace && old(listings) <= listings
      ensures Recorded(listings, moments, batchSize, world.trace) && AllRan(world.trace, runs, attempts)
      ensures err != Nil ==> listings == old(listings)
      ensures err == Nil ==> exists eligible :: listings == old(listings) + [Listing(eligible, afterID, ids)]
      ensures old(moments) <= moments && SeenWith(moments, |old(moments)|, now - minAge)
      ensures err == Nil ==>
                Visited(listings) == attempts + ids && CursorOf(listings) == CursorAfter("", ids) && Ascending(ids)
      ensures world.quiet ==>
                && world.s == old(world.s) && err == Nil
                && ids == Page(Eligible(Table(world.s), now - minAge), afterID, batchSize)
    {
      hide Page, AllRan, Legal, Exec, Visited, Recorded, CandidatesAt;
      ids, err := world.ListRecoverableIDs(afterID, now - minAge, batchSize);
      RecordStays(listings, moments, batchSize, old(world.trace), world.trace);
      AllRanStays(old(world.trace), world.trace, runs, attempts);
      if err == Nil { Note(ids, Moment(|world.trace|, world.s, now - minAge)); }
    }

    /** Keeps the record of the listings. */
    ghost method Note(ids: seq<Id>, m: Moment)
      requires world.Valid() && Recorded(listings, moments, batchSize, world.trace) && afterID == CursorOf(listings)
      requires m.length == |world.trace| && m.state == world.s
      requires ids == Page(Eligible(Table(m.state), m.olderThan), afterID, batchSize)
      modifies this`listings, this`moments
      ensures listings == old(listings) + [Listing(CandidatesAt(m), afterID, ids)] && moments == old(moments) + [m]
      ensures Recorded(listings, moments, batchSize, world.trace)
      ensures Visited(listings) == Visited(old(listings)) + ids && CursorOf(listings) == CursorAfter("", ids) && Ascending(ids)
    {
      RecordListing(listings, moments, batchSize, world.trace, afterID, ids, m);
      listings, moments := listings + [Listing(CandidatesAt(m), afterID, ids)], moments + [m];
    }

    /** The page to work on: the next one or, if that is empty, the first. */
    method NextPage(now: int) returns (ids: seq<Id>, err: Error)
      requires Valid()
      modifies this`afterID, this`listings, this`moments, world
      ensures world.Valid() && old(world.trace) <= world.trace && old(listings) <= listings
      ensures Recorded(listings, moments, batchSize, world.trace) && AllRan(world.trace, runs, attempts)
      ensures err != Nil ==> Valid() && !world.quiet
      ensures err == Nil <==> ScannedOn(listings, |old(listings)|)
      ensures old(moments) <= moments && SeenWith(moments, |old(moments)|, now - minAge)
      ensures err == Nil ==> listings[|listings| - 1].page == ids
      ensures err == Nil ==>
                && Visited(listings) == attempts + ids && CursorOf(listings) == CursorAfter("", ids)
                && Ascending(ids) && (ids == [] ==> afterID == "")
      ensures world.quiet ==>
                && world.s == old(world.s)
                && ids == Visit(Eligible(Table(world.s), now - minAge), old(afterID), batchSize)
    {
      hide Page, AllRan, Recorded, Legal, Exec, Visited, Eligible;
      ids, err := ListPage(now);
      if err != Nil { return; }
      if |ids| == 0 && afterID != "" {
        afterID := "";
        ids, err := ListPage(now);
      }
    }

    /** Scans one page; an empty one sends the cursor back and the first page is scanned.  Every order
        on it is attempted, whether or not others fail. */
    method RunOnce(cancelled: bool, now: int) returns (err: Error)
      requires Valid()
      modifies this, world
      ensures Valid() && old(listings) <= listings && old(attempts) <= attempts && old(world.trace) <= world.trace
      ensures cancelled ==> afterID == old(afterID) && attempts == old(attempts)
      ensures old(moments) <= moments && SeenWith(moments, |old(moments)|, now - minAge)
      ensures |old(runs)| <= |runs|
      ensures err == Nil <==>
                !cancelled && ScannedOn(listings, |old(listings)|) && NoneFailed(world.s, runs, |old(runs)|)
      ensures attempts == old(attempts) +
                          if ScannedOn(listings, |old(listings)|) then listings[|listings| - 1].page else []
      ensures world.quiet && !cancelled ==>
                var visit := Visit(Eligible(Table(old(world.s)), now - minAge), old(afterID), batchSize);
                && attempts == old(attempts) + visit && afterID == CursorAfter("", visit)
                && SettledFrom(old(world.s), world.s, SetOf(visit), world.env)
    {
      hide AllRan, Recorded, NoneFailed, SettledFrom, Legal, Exec, Eligible, Visit, Visited;
      if cancelled { return {Port}; }
      var ids;
      ids, err := NextPage(now);
      if err != Nil { return; }
      ghost var listed := world.trace;
      err := AttemptAll(ids, now);
      RecordStays(listings, moments, batchSize, listed, world.trace);
    }

    /** The loop over the page: the cursor moves first, then the order is attempted. */
    method AttemptAll(ids: seq<Id>, now: int) returns (err: Error)
      requires world.Valid() && Ascending(ids) && (ids == [] ==> afterID == "")
      requires AllRan(world.trace, runs, attempts)
      modifies this`afterID, this`attempts, this`runs, world
      ensures world.Valid() && attempts == old(attempts) + ids && old(world.trace) <= world.trace
      ensures AllRan(world.trace, runs, attempts) && |runs| == |old(runs)| + |ids|
      ensures err == Nil <==> NoneFailed(world.s, runs, |old(runs)|)
      ensures afterID == CursorAfter("", ids)
      ensures world.quiet ==> SettledFrom(old(world.s), world.s, SetOf(ids), world.env)
    {
      err := Nil;
      assert NoneFailed(world.s, runs, |runs|);
      hide AllRan, NoneFailed, SettledFrom, Legal, Exec;
      for i := 0 to |ids|
        invariant world.Valid() && old(world.trace) <= world.trace
        invariant attempts == old(attempts) + ids[..i] && |runs| == |old(runs)| + i
        invariant AllRan(world.trace, runs, attempts) && (err == Nil <==> NoneFailed(world.s, runs, |old(runs)|))
        invariant afterID == if i == 0 then old(afterID) else ids[i - 1]
        invariant world.quiet ==> SettledFrom(old(world.s), world.s, SetOf(ids[..i]), world.env)
      {
        ghost var before := world.s;
        var failure := Attempt(ids[i], now, |old(runs)|);
        if world.quiet { OneMoreSettled(old(world.s), before, world.s, ids, i, world.env); }
        assert ids[..i + 1] == ids[..i] + [ids[i]];
        err := err + failure;
      }
      assert ids[..|ids|] == ids;
    }

    /** Moves the cursor to the order, then reconciles it. */
    method Attempt(id: Id, now: int, ghost lo: nat) returns (err: Error)
      requires world.Valid() && AllRan(world.trace, runs, attempts) && lo <= |runs|
      modifies this`afterID, this`attempts, this`runs, world
      ensures world.Valid() && old(world.trace) <= world.trace && afterID == id
      ensures AllRan(world.trace, runs, attempts)
      ensures attempts == old(attempts) + [id] && |runs| == |old(runs)| + 1
      ensures NoneFailed(world.s, runs, lo) <==> NoneFailed(old(world.s), old(runs), lo) && err == Nil
      ensures world.quiet ==> SettledFrom(old(world.s), world.s, {id}, world.env)
    {
      hide AllRan, NoneFailed, SettledFrom;
      afterID := id;
      ghost var me;
      err, me := ReconcileOrder(id, now);
      OneMoreRan(old(world.trace), world.trace, runs, attempts, lo, me, id);
      attempts, runs := attempts + [id], runs + [me];
    }

    /** One order, whoever asks.  Recovery never charges: it has no action that could. */
    method ReconcileOrder(id: Id, now: int) returns (err: Error, ghost me: nat)
      requires world.Valid()
      modifies world
      ensures world.Valid() && old(world.trace) <= world.trace && me >= |old(world.s.workers)|
      ensures world.Runs(me, Worker(id, Recovery, Finished(err == Nil), false))
      ensures world.quiet ==>
                var c := old(At(world.s, id));
                (err == Nil <==> c.row.Some? && SettlesWell(c.row.value, c.decision, world.env))
      ensures world.quiet ==> SettledFrom(old(world.s), world.s, {id}, world.env)
    {
      var w, x := world.Recover(id);
      me := w;
      ghost var start := world.s;
      var order, findErr := world.FindByID(w, x, id);
      ghost var x1 := x.(pc := AfterFind(DataOf(order)));
      if findErr != Nil {
        err := findErr;
      } else if order.status == Pending || order.status == PaymentUnknown {
        ghost var mid := world.s;
        err := Resolve(w, x1, order, now);
        if world.quiet { AlongsideCompose(start, mid, world.s, me, world.env); }
      } else if order.status == Paid || order.status == FulfillmentPending {
        ghost var mid := world.s;
        err := Fulfill(w, x1, order, now);
        if world.quiet { AlongsideCompose(start, mid, world.s, me, world.env); }
      } else {
        err := Nil;
      }
      if world.quiet { SettledAlone(old(world.s), start, world.s, me, id, world.env); }
    }

    /** A pending or unknown payment is resolved by what the provider reports. */
    method Resolve(me: nat, ghost x: Worker, order: Order, now: int) returns (err: Error)
      requires world.Valid() && world.Runs(me, x) && x.side == Recovery && x.pc == LookingUp(order.Data())
      requires order.status == Pending || order.status == PaymentUnknown
      requires order.events == []
      modifies world, order
      ensures world.Valid() && old(world.trace) <= world.trace
      ensures world.Runs(me, x.(pc := Finished(err == Nil)))
      ensures world.quiet ==> Alongside(old(world.s), world.s, me, world.env)
    {
      hide Alongside, Legal, Exec;
      var reply := world.LookupCharge(me, x, order.id);
      ghost var x1 := x.(pc := AfterLookup(order.Data(), reply));
      ghost var mid := world.s;
      if reply.LookupFailed? { return {Port}; }
      if reply.NotFound? { return Nil; }
      var expected := order.status;
      var markErr: Error;
      if reply.result.status == "approved" {
        if reply.result.reference == "" { return {MissingChargeReference}; }
        markErr := order.MarkPaid(now, reply.result.reference);
      } else if reply.result.status == "declined" {
        markErr := order.MarkFailed(now, "payment_reconciled_declined");
      } else {
        return {UnknownChargeStatus};
      }
      assert markErr == Nil;
      err := SaveAndFulfill(me, x1, order, expected, now);
      if world.quiet { AlongsideCompose(old(world.s), mid, world.s, me, world.env); }
    }

    /** Persists a resolved payment and goes on to fulfil a paid one. */
    method SaveAndFulfill(me: nat, ghost x: Worker, order: Order, expected: OrderStatus, now: int) returns (err: Error)
      requires world.Valid() && world.Runs(me, x) && x.side == Recovery
      requires x.pc.Writing? && x.pc.goal == Resolved && x.pc.next == order.Data() && x.pc.previous.status == expected
      requires order.status == Paid || order.status == Failed
      requires |order.events| == 1 && order.events[0].name == EventName(order.status)
      modifies world, order
      ensures world.Valid() && old(world.trace) <= world.trace
      ensures world.Runs(me, x.(pc := Finished(err == Nil)))
      ensures world.quiet ==> Alongside(old(world.s), world.s, me, world.env)
    {
      var updated, saveErr := world.SaveIfStatus(me, x, order, expected);
      if saveErr != Nil { return saveErr; }
      if !updated { return Nil; }
      ghost var saved := world.s;
      EmitDomainEvents(world, me, x.(pc := Announcing(order.Data(), Resolved)), order);
      if world.quiet { AlongsideCompose(old(world.s), saved, world.s, me, world.env); }
      if order.status == Failed { return Nil; }
      ghost var emitted := world.s;
      err := Fulfill(me, x.(pc := Reserving(order.Data())), order, now);
      if world.quiet { AlongsideCompose(old(world.s), emitted, world.s, me, world.env); }
    }

    /** Retries the reservation of a paid order. */
    method Fulfill(me: nat, ghost x: Worker, order: Order, now: int) returns (err: Error)
      requires world.Valid() && world.Runs(me, x) && x.side == Recovery && x.pc == Reserving(order.Data())
      requires order.status == Paid || order.status == FulfillmentPending
      requires order.events == []
      modifies world, order
      ensures world.Valid() && old(world.trace) <= world.trace
      ensures world.Runs(me, x.(pc := Finished(err == Nil)))
      ensures world.quiet ==> Alongside(old(world.s), world.s, me, world.env)
    {
      hide Alongside, Legal, Exec;
      var expected := order.status;
      err := world.Reserve(me, x, order.id, order.items);
      ghost var x1 := x.(pc := AfterReserve(Recovery, order.Data(), err == Nil));
      ghost var mid := world.s;
      if err != Nil {
        if order.status == Paid { DeferFulfillment(me, x1, order, now); }
        if world.quiet && order.status != expected { AlongsideCompose(old(world.s), mid, world.s, me, world.env); }
        return;
      }
      var markErr := order.Complete(now);
      assert markErr == Nil;
      err := SaveAndEmit(me, x1, order, expected);
      if world.quiet { AlongsideCompose(old(world.s), mid, world.s, me, world.env); }
    }

    /** Records that the reservation of a paid order failed; whether that could be saved does not matter. */
    method DeferFulfillment(me: nat, ghost x: Worker, order: Order, now: int)
      requires world.Valid() && world.Runs(me, x) && x.side == Recovery && order.status == Paid && order.events == []
      requires x.pc == Writing(order.Data(), Marked(order.Data(), Defer), Unreserved)
      modifies world, order
      ensures world.Valid() && old(world.trace) <= world.trace && order.status == FulfillmentPending
      ensures world.Runs(me, x.(pc := Finished(false)))
      ensures world.quiet ==> Alongside(old(world.s), world.s, me, world.env)
    {
      var markErr := order.MarkFulfillmentPending(now, "inventory_reconciliation_error");
      assert markErr == Nil;
      var saveErr := SaveAndEmit(me, x, order, Paid);
    }

    /** The conditional write that ends a fulfilment, announced when it took effect. */
    method SaveAndEmit(me: nat, ghost x: Worker, order: Order, expected: OrderStatus) returns (err: Error)
      requires world.Valid() && world.Runs(me, x) && x.side == Recovery
      requires x.pc.Writing? && (x.pc.goal == Unreserved || x.pc.goal == Fulfilled)
      requires x.pc.next == order.Data() && x.pc.previous.status == expected
      requires |order.events| == 1 && order.events[0].name == EventName(order.status)
      modifies world, order
      ensures world.Valid() && old(world.trace) <= world.trace
      ensures world.Runs(me, x.(pc := Finished(err == Nil && x.pc.goal == Fulfilled))) && order.Data() == old(order.Data())
      ensures world.quiet ==> Alongside(old(world.s), world.s, me, world.env)
    {
      var updated;
      updated, err := world.SaveIfStatus(me, x, order, expected);
      if err != Nil { return; }
      if updated {
        ghost var saved := world.s;
        EmitDomainEvents(world, me, x.(pc := Announcing(order.Data(), x.pc.goal)), order);
        if world.quiet { AlongsideCompose(old(world.s), saved, world.s, me, world.env); }
      }
    }
  }

  lemma {:induction false} VisitedSplits(tr: seq<Listing>, lo: nat, hi: nat)
    requires lo <= hi <= |tr|
    ensures Visited(tr[..hi]) == Visited(tr[..lo]) + Visited(tr[lo..hi])
    decreases hi
  {
    if lo < hi {
      VisitedSplits(tr, lo, hi - 1);
      assert tr[..hi][..hi - 1] == tr[..hi - 1] && tr[lo..hi][..hi - 1 - lo] == tr[lo..hi - 1];
    }
  }

  /** Fair sweeps of a real reconciler: in any interleaving, between two resets of its cursor, an
      order that the table shows as eligible at each of its listings is attempted exactly once. */
  lemma {:induction false} ReconcilerSweepsFairly(listings: seq<Listing>, moments: seq<Moment>, batch: nat, trace: seq<Move>,
                                                  lo: nat, hi: nat, k: Id)
    requires batch > 0 && Recorded(listings, moments, batch, trace) && |moments| == |listings| && IsSweep(listings, lo, hi)
    requires k != "" && forall i :: lo <= i <= hi ==> k in CandidatesAt(moments[i])
    ensures multiset(Visited(listings[lo..hi]))[k] == 1
    ensures Visited(listings[..hi]) == Visited(listings[..lo]) + Visited(listings[lo..hi])
  {
    hide Page, Recorded;
    RecordedIsGoodTrace(listings, moments, batch, trace);
    forall i | lo <= i < hi + 1 ensures k in listings[i].eligible { RecordedListing(listings, moments, batch, trace, i); }
    assert StaysEligible(listings, lo, hi + 1, k);
    FairSweep(listings, batch, lo, hi, k);
    VisitedSplits(listings, lo, hi);
  }

  // ---------- draining ----------

  /** One undisturbed reconciliation ends this order's recovery. */
  predicate Settleable(c: Cell, env: Env) {
    c.row.Some? && Terminal(SettledRow(c.row.value, c.decision, env).status)
  }

  /** In terms of what can be looked up: the order is terminal already, or it is paid and the inventory
      works, or its charge can be looked up and is refused, or approved with a reference while the
      inventory works. */
  lemma SettleableIffDecided(c: Cell, env: Env)
    requires c.row.Some?
    ensures Settleable(c, env) <==>
              var status := c.row.value.status;
              || status == Completed || status == Failed
              || ((status == Paid || status == FulfillmentPending) && env.stock)
              || ((status == Pending || status == PaymentUnknown) && env.lookup
                  && (Refused(c.decision) || (c.decision.Approved? && c.decision.reference != "" && env.stock)))
  {
  }

  lemma EligibleIn(s: State, olderThan: int, k: Id)
    ensures k in Eligible(Table(s), olderThan) <==>
              At(s, k).row.Some? && At(s, k).row.value.createdAt <= olderThan && Recoverable(At(s, k).row.value.status)
  {
    TableHas(s, k);
  }

  /** Settled orders leave the candidates, and nothing else does. */
  lemma EligibleAfterSettling(s: State, t: State, visited: set<Id>, olderThan: int, env: Env)
    requires SettledFrom(s, t, visited, env) && forall k :: k in visited ==> Settleable(At(s, k), env)
    ensures Eligible(Table(t), olderThan) == Eligible(Table(s), olderThan) - visited
  {
    forall k ensures k in Eligible(Table(t), olderThan) <==> k in Eligible(Table(s), olderThan) - visited {
      EligibleIn(s, olderThan, k);
      EligibleIn(t, olderThan, k);
    }
  }

  lemma SettledFromComposes(s: State, t: State, u: State, a: set<Id>, b: set<Id>, env: Env)
    requires SettledFrom(s, t, a, env) && SettledFrom(t, u, b, env) && a !! b
    ensures SettledFrom(s, u, a + b, env)
  {
    forall k ensures k in b ==> At(t, k) == At(s, k) { }
    forall k ensures k in a ==> At(u, k) == At(t, k) { }
  }

  lemma NoEmptyCandidate(trace: seq<Move>, olderThan: int)
    requires Legal(INIT, trace)
    ensures "" !in Eligible(Table(Exec(INIT, trace)), olderThan)
  {
    var s := Exec(INIT, trace);
    Reached(trace, "");
    EligibleIn(s, olderThan, "");
    if At(s, "").row.Some? { RowKeyNotEmpty(At(s, ""), ""); }
  }

  lemma RowKeyNotEmpty(c: Cell, k: Id)
    requires CellInv(c, k) && c.row.Some?
    ensures k != ""
  {
    assert c.commits[0].row.id == k && Fresh(c.commits[0].row);
  }

  lemma VisitIsSubset(ids: set<Id>, cursor: Id, batch: nat)
    ensures SetOf(Visit(ids, cursor, batch)) <= ids
  {
    PageIsNextCandidates(ids, cursor, batch);
    PageIsNextCandidates(ids, "", batch);
  }

  /** Of the backlog that s had, all but left is settled in t, and left is what is eligible there. */
  ghost predicate Draining(s: State, t: State, backlog: set<Id>, left: set<Id>, nows: seq<int>, minAge: int, env: Env) {
    && left <= backlog && SettledFrom(s, t, backlog - left, env)
    && forall j :: 0 <= j < |nows| ==> Eligible(Table(t), nows[j] - minAge) == left
  }

  /** Successive calls of RunOnce in a quiet world, with any clock that makes no further order
      eligible, settle a decided backlog within ceil(n / batch) + 1 calls. */
  method Drain(r: Reconciler, nows: seq<int>, ghost backlog: set<Id>)
    requires r.Valid() && r.world.quiet
    requires forall i :: 0 <= i < |nows| ==> Eligible(Table(r.world.s), nows[i] - r.minAge) == backlog
    requires nows != [] && forall k :: k in backlog ==> Settleable(At(r.world.s, k), r.world.env)
    modifies r, r.world
    ensures r.Valid()
    ensures var left := AfterCalls(Backlog(backlog, old(r.afterID)), r.batchSize, |nows|).ids;
            && left <= backlog && SettledFrom(old(r.world.s), r.world.s, backlog - left, r.world.env)
            && (left == {} <==> |nows| >= CallsNeeded(Backlog(backlog, old(r.afterID)), r.batchSize))
    ensures |nows| >= CeilDiv(|backlog|, r.batchSize) + 1 ==> SettledFrom(old(r.world.s), r.world.s, backlog, r.world.env)
  {
    hide Recorded, Legal, Exec, Eligible, Draining, Settleable, SettledFrom, AllRan, Visited;
    hide OneCall, CallsNeeded, CeilDiv, CursorOf, Table, At;
    ghost var b := Backlog(backlog, r.afterID);
    DrainingStarts(r.world.s, backlog, nows, r.minAge, r.world.env);
    NoEmptyCandidate(r.world.trace, nows[0] - r.minAge);
    for i := 0 to |nows|
      invariant r.Valid()
      invariant r.afterID == AfterCalls(b, r.batchSize, i).cursor
      invariant Draining(old(r.world.s), r.world.s, backlog, AfterCalls(b, r.batchSize, i).ids, nows, r.minAge, r.world.env)
    {
      DrainOnce(r, nows, i, old(r.world.s), backlog, AfterCalls(b, r.batchSize, i));
    }
    DrainEnds(old(r.world.s), r.world.s, backlog, b, r.batchSize, nows, r.minAge, r.world.env);
  }

  /** One of the calls. */
  method DrainOnce(r: Reconciler, nows: seq<int>, i: nat, ghost start: State, ghost backlog: set<Id>, ghost b: Backlog)
    requires r.Valid() && r.world.quiet && i < |nows| && r.afterID == b.cursor
    requires Draining(start, r.world.s, backlog, b.ids, nows, r.minAge, r.world.env)
    requires forall k :: k in backlog ==> Settleable(At(start, k), r.world.env)
    modifies r, r.world
    ensures r.Valid() && r.afterID == OneCall(b, r.batchSize).cursor
    ensures Draining(start, r.world.s, backlog, OneCall(b, r.batchSize).ids, nows, r.minAge, r.world.env)
  {
    hide Recorded, Legal, Exec, Eligible, Visit, Draining, Settleable, SettledFrom, AllRan, Visited, NoneFailed, ScannedOn;
    ghost var before := r.world.s;
    DrainingMeans(start, before, backlog, b.ids, nows, r.minAge, r.world.env, i);
    var err := r.RunOnce(false, nows[i]);
    OneCallSettles(start, before, r.world.s, backlog, b, r.batchSize, nows, r.minAge, r.world.env);
  }

  lemma DrainEnds(s: State, t: State, backlog: set<Id>, b: Backlog, batch: nat, nows: seq<int>, minAge: int, env: Env)
    requires batch > 0 && nows != [] && b.ids == backlog && "" !in backlog
    requires Draining(s, t, backlog, AfterCalls(b, batch, |nows|).ids, nows, minAge, env)
    ensures var left := AfterCalls(b, batch, |nows|).ids;
            && left <= backlog && SettledFrom(s, t, backlog - left, env)
            && (left == {} <==> |nows| >= CallsNeeded(b, batch))
    ensures |nows| >= CeilDiv(|backlog|, batch) + 1 ==> SettledFrom(s, t, backlog, env)
  {
    hide SettledFrom;
    DrainedExactlyAfterCallsNeeded(b, batch, |nows|);
    if |nows| >= CeilDiv(|backlog|, batch) + 1 {
      BacklogDrainBound(b, batch, |nows|);
      assert backlog - {} == backlog;
    }
  }

  lemma DrainingStarts(s: State, backlog: set<Id>, nows: seq<int>, minAge: int, env: Env)
    requires forall j :: 0 <= j < |nows| ==> Eligible(Table(s), nows[j] - minAge) == backlog
    ensures Draining(s, s, backlog, backlog, nows, minAge, env)
  {
  }

  lemma DrainingMeans(s: State, t: State, backlog: set<Id>, left: set<Id>, nows: seq<int>, minAge: int,
                      env: Env, j: nat)
    requires Draining(s, t, backlog, left, nows, minAge, env) && j < |nows|
    ensures left <= backlog && SettledFrom(s, t, backlog - left, env)
    ensures Eligible(Table(t), nows[j] - minAge) == left
  {
  }

  lemma OneCallSettles(s: State, t: State, u: State, backlog: set<Id>, b: Backlog, batch: nat, nows: seq<int>, minAge: int,
                       env: Env)
    requires Draining(s, t, backlog, b.ids, nows, minAge, env)
    requires forall k :: k in backlog ==> Settleable(At(s, k), env)
    requires SettledFrom(t, u, SetOf(Visit(b.ids, b.cursor, batch)), env)
    ensures Draining(s, u, backlog, OneCall(b, batch).ids, nows, minAge, env)
  {
    hide Page;
    var visited := SetOf(Visit(b.ids, b.cursor, batch));
    VisitIsSubset(b.ids, b.cursor, batch);
    SettledFromComposes(s, t, u, backlog - b.ids, visited, env);
    assert (backlog - b.ids) + visited == backlog - (b.ids - visited);
    forall k | k in visited ensures Settleable(At(t, k), env) { assert At(t, k) == At(s, k); }
    forall j | 0 <= j < |nows| ensures Eligible(Table(u), nows[j] - minAge) == b.ids - visited {
      EligibleAfterSettling(t, u, visited, nows[j] - minAge, env);
    }
  }

  /** A worker left alone until it is finished has settled its order. */
  lemma SettledAlone(before: State, start: State, end: State, me: nat, id: Id, env: Env)
    requires Alongside(start, end, me, env) && start.workers[me] == Worker(id, Recovery, Finding, false)
    requires end.workers[me].pc.Finished?
    requires forall j :: At(start, j) == At(before, j)
    ensures SettledFrom(before, end, {id}, env)
    ensures end.workers[me].pc ==
            Finished(At(before, id).row.Some? && SettlesWell(At(before, id).row.value, At(before, id).decision, env))
  {
    DoneLeftAlone(At(end, id), me, end.workers[me], env);
    if At(before, id).row.Some? {
      ReconciliationSettles(At(start, id), me, id, env);
    } else {
      NothingToReconcile(At(start, id), me, id, env);
    }
  }

  lemma NothingToReconcile(c: Cell, w: nat, k: Id, env: Env)
    requires c.row.None?
    ensures LeftAlone(c, w, Worker(k, Recovery, Finding, false), env) == (c, Finished(false))
  {
    var x := Worker(k, Recovery, Finding, false);
    assert LeftAlone(c, w, x, env) == LeftAlone(QuietCell(c, w, x, env), w, QuietWorker(c, x, env), env);
  }

  lemma OneMoreSettled(s: State, t: State, u: State, ids: seq<Id>, i: nat, env: Env)
    requires i < |ids| && Ascending(ids)
    requires SettledFrom(s, t, SetOf(ids[..i]), env) && SettledFrom(t, u, {ids[i]}, env)
    ensures SettledFrom(s, u, SetOf(ids[..i + 1]), env)
  {
    var done, k0 := SetOf(ids[..i]), ids[i];
    assert ids[..i + 1] == ids[..i] + [k0];
    assert SetOf(ids[..i + 1]) == done + {k0};
    assert k0 !in done by {
      if k0 in ids[..i] {
        var j :| 0 <= j < i && ids[j] == k0;
        BelowIrreflexive(k0);
      }
    }
    assert At(t, k0) == At(s, k0);
    forall k | k != k0 ensures At(u, k) == At(t, k) { }
  }
}
