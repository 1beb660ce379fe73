/** The promises of the protocol, each over every interleaving: any number of requests and
    recovery workers, any crashes, lost replies, late charges, failed or silently successful
    writes and colliding order IDs. */
module Guarantees {
  import opened Common
  import opened Domain
  import opened Payment
  import opened Orders
  import opened Protocol
  import opened ProtocolInvariant
  import opened ProtocolSteps
  import opened ProtocolRuns

  lemma Reached(run: seq<Move>, k: Id)
    requires Legal(INIT, run)
    ensures CellInv(At(Exec(INIT, run), k), k)
  {
    ReachableInv(run);
    assert CellFits(Exec(INIT, run), k);
  }

  lemma ReachedWorker(run: seq<Move>, w: nat)
    requires Legal(INIT, run) && w < |Exec(INIT, run).workers|
    ensures var s := Exec(INIT, run);
            Good(At(s, s.workers[w].id), s.workers[w].id, w, s.workers[w])
  {
    ReachableInv(run);
    FitsTogether(Exec(INIT, run), w);
  }

  // ---------- charged is never shown as failed ----------

  /** The provider has a request before it that it may still approve. */
  predicate MayStillBeApproved(c: Cell) { c.inflight && c.decision == Undecided }

  /** A failed row means that its charge is not approved and never will be; and every approved
      charge has a durable row that is not failed. */
  lemma ChargedIsNeverShownFailed(run: seq<Move>, more: seq<Move>, k: Id)
    requires Legal(INIT, run + more) && Legal(INIT, run)
    ensures var c, later := At(Exec(INIT, run), k), At(Exec(INIT, run + more), k);
            && (c.row.Some? && c.row.value.status == Failed ==>
                  !MayStillBeApproved(c) && Refused(later.decision) && later.row == c.row)
            && (c.decision.Approved? ==>
                  c.row.Some? && c.row.value.status != Failed && later.row.Some? && later.row.value.status != Failed)
  {
    hide CellInv;
    Reached(run, k);
    Reached(run + more, k);
    Continue(run, more, k);
    var c, later := At(Exec(INIT, run), k), At(Exec(INIT, run + more), k);
    if c.decision.Approved? { ApprovedHasLiveRow(c, k); }
    if later.decision.Approved? { ApprovedHasLiveRow(later, k); }
    if c.row.Some? && Terminal(c.row.value.status) {
      TerminalCellStays(c, later, k);
      TerminalRowFacts(c, k);
    }
  }

  lemma ApprovedHasLiveRow(c: Cell, k: Id)
    requires CellInv(c, k) && c.decision.Approved?
    ensures c.row.Some? && c.row.value.status != Failed
  {
    assert Truth(c.decision, c.commits[|c.commits| - 1].row);
  }

  lemma Continue(run: seq<Move>, more: seq<Move>, k: Id)
    requires Legal(INIT, run + more) && Legal(INIT, run)
    ensures Legal(Exec(INIT, run), more) && Exec(INIT, run + more) == Exec(Exec(INIT, run), more)
    ensures Evolves(At(Exec(INIT, run), k), At(Exec(INIT, run + more), k))
  {
    RunsCompose(INIT, run, more);
    ReachableInv(run);
    RunEvolves(Exec(INIT, run), more, k);
  }

  // ---------- one aggregate ----------

  /** The committed states of a row, oldest first. */
  function States(c: Cell): seq<OrderData> { seq(|c.commits|, i requires 0 <= i < |c.commits| => c.commits[i].row) }

  /** The states one aggregate passes through under a sequence of marks, if all are allowed. */
  function Life(o: OrderData, marks: seq<Mark>): Option<seq<OrderData>>
    decreases |marks|
  {
    if marks == [] then Some([o])
    else if !CanMark(o.status, marks[0]) then None
    else match Life(Marked(o, marks[0]), marks[1..])
         case None => None
         case Some(rest) => Some([o] + rest)
  }

  /** The marks between consecutive states. */
  function MarksOf(h: seq<OrderData>): seq<Mark>
    requires forall i :: 0 < i < |h| ==> MarkInto(h[i]).Some?
    decreases |h|
  {
    if |h| <= 1 then [] else [MarkInto(h[1]).value] + MarksOf(h[1..])
  }

  lemma {:induction false} LegalStatesAreALife(h: seq<OrderData>)
    requires h != [] && forall i :: 0 < i < |h| ==> MarkInto(h[i]).Some? && Succeeds(h[i - 1], h[i])
    ensures Life(h[0], MarksOf(h)) == Some(h)
    decreases |h|
  {
    if |h| == 1 {
      assert h == [h[0]];
    } else {
      LegalStatesAreALife(h[1..]);
      var marks := MarksOf(h);
      assert Succeeds(h[0], h[1]) && marks[0] == MarkInto(h[1]).value && marks[1..] == MarksOf(h[1..]);
      assert h == [h[0]] + h[1..];
    }
  }

  /** Linearisation: whatever the interleaving, the committed states of a row are exactly one legal
      life of one aggregate, from NewOrder through guarded marks; the row is its last state. */
  lemma HistoryIsOneAggregate(run: seq<Move>, k: Id)
    requires Legal(INIT, run)
    ensures var c := At(Exec(INIT, run), k);
            && (c.row.None? <==> States(c) == [])
            && (c.row.Some? ==>
                  && Fresh(States(c)[0]) && States(c)[0].id == k
                  && (forall i :: 0 < i < |States(c)| ==>
                        MarkInto(States(c)[i]).Some? && Succeeds(States(c)[i - 1], States(c)[i]))
                  && Life(States(c)[0], MarksOf(States(c))) == Some(States(c))
                  && c.row.value == States(c)[|States(c)| - 1])
  {
    Reached(run, k);
    var c := At(Exec(INIT, run), k);
    if c.row.Some? {
      var h := States(c);
      forall i | 0 < i < |h| ensures MarkInto(h[i]).Some? && Succeeds(h[i - 1], h[i]) {
        assert Succeeds(c.commits[i - 1].row, c.commits[i].row);
      }
      LegalStatesAreALife(h);
    }
  }

  /** The same history driven through one real aggregate: no call fails, each call buffers exactly
      one event, and the events name exactly the committed states. */
  method ReplayOnAggregate(h: seq<OrderData>) returns (states: seq<OrderData>, events: seq<Event>)
    requires h != [] && Fresh(h[0]) && forall i :: 0 < i < |h| ==> Succeeds(h[i - 1], h[i])
    ensures states == h && |events| == |h|
    ensures forall i :: 0 <= i < |h| ==> events[i].name == EventName(h[i].status)
  {
    var o, err := Order.NewOrder(h[0].id, h[0].customerId, h[0].items, h[0].createdAt);
    states := [o.Data()];
    events := o.PullEvents();
    for i := 1 to |h|
      invariant fresh(o) && o.Data() == h[i - 1] && o.events == []
      invariant states == h[..i] && |events| == i
      invariant forall j :: 0 <= j < i ==> events[j].name == EventName(h[j].status)
    {
      assert Succeeds(h[i - 1], h[i]);
      var pulled := MarkAggregate(o, h[i]);
      states, events := states + [o.Data()], events + pulled;
      assert h[..i + 1] == h[..i] + [h[i]];
    }
  }

  /** One legal step on the aggregate: the guarded method for the target status does not fail. */
  method MarkAggregate(o: Order, next: OrderData) returns (pulled: seq<Event>)
    requires Succeeds(o.Data(), next) && o.events == []
    modifies o
    ensures o.Data() == next && o.events == []
    ensures |pulled| == 1 && pulled[0].name == EventName(next.status)
  {
    var err: Error;
    match next.status {
      case Paid => err := o.MarkPaid(0, next.paymentReference);
      case Failed => err := o.MarkFailed(0, "");
      case PaymentUnknown => err := o.MarkPaymentUnknown(0, "");
      case FulfillmentPending => err := o.MarkFulfillmentPending(0, "");
      case Completed => err := o.Complete(0);
    }
    assert err == Nil;
    pulled := o.PullEvents();
  }

  // ---------- comparing the status compares the row ----------

  /** A conditional write that takes effect found the whole row its worker had read, and leaves
      exactly the state the worker computed from it. */
  lemma StatusComparisonComparesRow(run: seq<Move>, w: nat, reply: DbReply)
    requires Legal(INIT, run) && Enabled(Exec(INIT, run), Act(w, Db(reply)))
    requires Exec(INIT, run).workers[w].pc.Writing?
    ensures var s := Exec(INIT, run);
            var x := s.workers[w];
            var c, c' := At(s, x.id), At(Apply(s, Act(w, Db(reply))), x.id);
            && (c'.row != c.row ==> c.row == Some(x.pc.previous) && c'.row == Some(x.pc.next))
            && (c'.row != c.row <==> RowMatches(c, x.pc.previous.status) && TakesEffect(reply))
            && Succeeds(x.pc.previous, x.pc.next)
  {
    ReachedWorker(run, w);
    var s := Exec(INIT, run);
    var x := s.workers[w];
    var c := At(s, x.id);
    SuccessorRaisesRank(x.pc.previous, x.pc.next);
    if RowMatches(c, x.pc.previous.status) && TakesEffect(reply) {
      MatchingWriteCommitsNext(c, x.id, x.pc.previous, x.pc.next, w, reply);
    }
  }

  /** A stored payment reference is never erased or changed. */
  lemma ReferenceIsPermanent(run: seq<Move>, more: seq<Move>, k: Id)
    requires Legal(INIT, run + more) && Legal(INIT, run)
    ensures var c, later := At(Exec(INIT, run), k), At(Exec(INIT, run + more), k);
            c.row.Some? && c.row.value.paymentReference != "" ==>
              && later.row.Some? && later.row.value.paymentReference == c.row.value.paymentReference
              && later.decision == Approved(c.row.value.paymentReference)
  {
    Reached(run, k);
    Reached(run + more, k);
    Continue(run, more, k);
    var c, later := At(Exec(INIT, run), k), At(Exec(INIT, run + more), k);
    if c.row.Some? && c.row.value.paymentReference != "" {
      var i := |c.commits| - 1;
      assert Truth(c.decision, c.commits[i].row);
      assert later.commits[i].row == c.row.value;
      PaidRowStaysPaid(later, k, c.row.value);
    }
  }

  // ---------- charge at most once ----------

  /** At most one charge per key, sent by the request whose insert succeeded, for the total of the
      stored items; a provider decision implies that charge. */
  lemma ChargeAtMostOnce(run: seq<Move>, k: Id)
    requires Legal(INIT, run)
    ensures var c := At(Exec(INIT, run), k);
            && |c.charges| <= 1
            && (c.charges != [] ==>
                  && c.row.Some? && c.commits != [] && c.commits[0].acked && c.charges[0].author == c.commits[0].author
                  && c.charges[0].key == k && c.charges[0].amount == TotalCents(c.row.value.items))
            && (c.inflight || c.decision != Undecided ==> |c.charges| == 1)
  {
    Reached(run, k);
  }

  /** When a charge is sent, the pending row is already durable, written by the same request, and no
      charge was sent before. */
  lemma ChargeFollowsDurableRow(run: seq<Move>, w: nat)
    requires Legal(INIT, run) && Enabled(Exec(INIT, run), Act(w, Sent))
    ensures var s := Exec(INIT, run);
            var c := At(s, s.workers[w].id);
            && c.row.Some? && c.commits != [] && c.commits[0] == Commit(s.workers[w].pc.order, w, true) && c.charges == []
            && s.workers[w].side == Foreground
  {
    ReachedWorker(run, w);
  }

  // ---------- what the caller is told ----------

  /** A response other than 201 and 202 means that the charge this request sent, if any, is not
      approved and never will be. */
  lemma NoUnresolvedOutcomeLeaks(run: seq<Move>, more: seq<Move>, w: nat)
    requires Legal(INIT, run + more) && Legal(INIT, run)
    requires w < |Exec(INIT, run).workers| && Exec(INIT, run).workers[w].pc.Returned?
    ensures var s, t := Exec(INIT, run), Exec(INIT, run + more);
            var code := HttpStatusOf(s.workers[w].pc.result, s.workers[w].pc.err);
            var later := At(t, s.workers[w].id);
            && code in {201, 202, 402, 500, 502}
            && (ChargedBy(later, w) && code !in {201, 202} ==> Refused(later.decision))
            && (ChargedBy(later, w) && later.decision.Approved? ==> code in {201, 202})
  {
    hide CellInv;
    Continue(run, more, Exec(INIT, run).workers[w].id);
    DoneStaysDone(Exec(INIT, run), more, w);
    ReachedWorker(run, w);
    ReachedWorker(run + more, w);
  }

  /** 201 means completed for good with an approved charge and a reservation; 402 means failed for good. */
  lemma DefiniteResponsesAreFinal(run: seq<Move>, more: seq<Move>, w: nat)
    requires Legal(INIT, run + more) && Legal(INIT, run)
    requires w < |Exec(INIT, run).workers| && Exec(INIT, run).workers[w].pc.Returned?
    ensures var s := Exec(INIT, run);
            var later := At(Exec(INIT, run + more), s.workers[w].id);
            var code := HttpStatusOf(s.workers[w].pc.result, s.workers[w].pc.err);
            && (code == 201 || code == 402 ==> later.row == s.workers[w].pc.result && later.row.Some?)
            && (code == 201 ==> later.row.value.status == Completed
                                && later.decision == Approved(later.row.value.paymentReference)
                                && later.reserved == Some(later.row.value.items))
            && (code == 402 ==> later.row.value.status == Failed && Refused(later.decision))
  {
    hide CellInv;
    var s := Exec(INIT, run);
    var k := s.workers[w].id;
    Continue(run, more, k);
    ReachedWorker(run, w);
    Reached(run + more, k);
    DefiniteResultFacts(At(s, k), At(Exec(INIT, run + more), k), k, w, s.workers[w]);
  }

  lemma DefiniteResultFacts(c: Cell, later: Cell, k: Id, w: nat, x: Worker)
    requires CellInv(c, k) && CellInv(later, k) && Evolves(c, later)
    requires x.pc.Returned? && ResultFits(c, w, x.pc.result, x.pc.err)
    ensures var code := HttpStatusOf(x.pc.result, x.pc.err);
            && (code == 201 || code == 402 ==> later.row == x.pc.result && later.row.Some?)
            && (code == 201 ==> later.row.value.status == Completed
                                && later.decision == Approved(later.row.value.paymentReference)
                                && later.reserved == Some(later.row.value.items))
            && (code == 402 ==> later.row.value.status == Failed && Refused(later.decision))
  {
    if x.pc.err == Nil {
      HeldTerminalIsRow(c, k, x.pc.result.value);
      TerminalCellStays(c, later, k);
      TerminalRowFacts(later, k);
    }
  }

  lemma TerminalRowFacts(c: Cell, k: Id)
    requires CellInv(c, k) && c.row.Some? && Terminal(c.row.value.status)
    ensures c.row.value.status == Failed ==> Refused(c.decision)
    ensures c.row.value.status == Completed ==>
              c.decision == Approved(c.row.value.paymentReference) && c.reserved == Some(c.row.value.items)
  {
    var last := |c.commits| - 1;
    assert c.row.value == c.commits[last].row;
    assert Truth(c.decision, c.commits[last].row) && c.commits[last].row.items == c.commits[0].row.items;
  }

  lemma HeldTerminalIsRow(c: Cell, k: Id, o: OrderData)
    requires CellInv(c, k) && Held(c, o) && Terminal(o.status)
    ensures c.row == Some(o)
  {
    var i :| 0 <= i < |c.commits| && c.commits[i].row == o;
    var r, top := Rank(c.commits[i].row.status), Rank(c.commits[|c.commits| - 1].row.status);
    assert top <= 4;
  }

  /** Every order Execute returns is a state its row really held, no later than the row now; no
      error means a terminal state. */
  lemma ResultsAreTruthful(run: seq<Move>, w: nat)
    requires Legal(INIT, run) && w < |Exec(INIT, run).workers| && Exec(INIT, run).workers[w].pc.Returned?
    ensures var s := Exec(INIT, run);
            var c, result, err := At(s, s.workers[w].id), s.workers[w].pc.result, s.workers[w].pc.err;
            && (result.Some? ==>
                  result.value in States(c) && c.row.Some? && Rank(result.value.status) <= Rank(c.row.value.status))
            && (err == Nil ==> result.Some? && Terminal(result.value.status) && c.row == result)
  {
    ReachedWorker(run, w);
    var s := Exec(INIT, run);
    var k := s.workers[w].id;
    var c, result := At(s, k), s.workers[w].pc.result;
    if result.Some? {
      var i :| 0 <= i < |c.commits| && c.commits[i].row == result.value;
      assert States(c)[i] == result.value;
      HeldRankAtMostRow(c, k, result.value);
      if s.workers[w].pc.err == Nil { HeldTerminalIsRow(c, k, result.value); }
    }
  }

  /** A successful reload after a conflict returns a strictly later state. */
  lemma ReloadReturnsLaterState(run: seq<Move>, w: nat)
    requires Legal(INIT, run) && Enabled(Exec(INIT, run), Act(w, RowRead(true)))
    requires Exec(INIT, run).workers[w].pc.Reloading?
    ensures var s := Exec(INIT, run);
            var s' := Apply(s, Act(w, RowRead(true)));
            && s'.workers[w].pc.Returned? && s'.workers[w].pc.result.Some?
            && Rank(s.workers[w].pc.previous.status) < Rank(s'.workers[w].pc.result.value.status)
            && s'.workers[w].pc.result.value.id == s.workers[w].id
            && HttpStatusOf(s'.workers[w].pc.result, s'.workers[w].pc.err) == 202
  {
    ReachedWorker(run, w);
    var s := Exec(INIT, run);
    var c := At(s, s.workers[w].id);
    assert c.row.value == c.commits[|c.commits| - 1].row;
  }

  // ---------- fulfilment follows durable payment ----------

  /** Every reservation call found a paid row and carried the order's key and items; every
      completed row has its reservation and an approved charge with the stored reference. */
  lemma FulfilmentFollowsPayment(run: seq<Move>, k: Id)
    requires Legal(INIT, run)
    ensures var c := At(Exec(INIT, run), k);
            && (forall i :: 0 <= i < |c.reserves| ==>
                  && c.row.Some? && c.reserves[i].key == k && c.reserves[i].items == c.row.value.items
                  && c.reserves[i].seen in {Some(Paid), Some(FulfillmentPending), Some(Completed)}
                  && PaidUp(c.row.value.status))
            && (c.row.Some? && c.row.value.status == Completed ==>
                  && c.reserved == Some(c.row.value.items)
                  && c.row.value.paymentReference != "" && c.decision == Approved(c.row.value.paymentReference))
  {
    Reached(run, k);
    InitialInv();
    ReservesImplyPaid(INIT, run, k);
    var c := At(Exec(INIT, run), k);
    if c.row.Some? {
      var last := |c.commits| - 1;
      assert Truth(c.decision, c.commits[last].row) && c.commits[last].row.items == c.commits[0].row.items;
    }
  }

  ghost predicate ReservedOnlyPaid(c: Cell) {
    c.reserves != [] ==> c.row.Some? && PaidUp(c.row.value.status)
  }

  lemma PaidRowStaysPaidLater(c: Cell, later: Cell, k: Id)
    requires CellInv(c, k) && CellInv(later, k) && Evolves(c, later)
    requires c.row.Some? && PaidUp(c.row.value.status)
    ensures later.row.Some? && PaidUp(later.row.value.status)
  {
    var last := |c.commits| - 1;
    assert later.commits[last].row == c.row.value;
    PaidRowStaysPaid(later, k, c.row.value);
  }

  lemma OnlyReservingReserves(c: Cell, k: Id, w: WorkerId, x: Worker, r: Reaction)
    requires Good(c, k, w, x) && Possible(c, x, r) && NextCell(c, w, x, r).reserves != c.reserves
    ensures c.row.Some? && PaidUp(c.row.value.status)
  {
    assert x.pc.Reserving?;
    PaidRowStaysPaid(c, k, x.pc.order);
  }

  lemma MoveReservesOnlyPaid(s: State, m: Move, k: Id)
    requires Inv(s) && Enabled(s, m) && ReservedOnlyPaid(At(s, k))
    ensures ReservedOnlyPaid(At(Apply(s, m), k))
  {
    hide CellInv, WorkerInv, Authored, LateInv;
    var c, c' := At(s, k), At(Apply(s, m), k);
    assert CellFits(s, k);
    if c'.reserves != c.reserves {
      var x := s.workers[m.w];
      assert x.id == k && WorkerFits(s, m.w);
      OnlyReservingReserves(c, k, m.w, x, m.reaction);
    }
    if c.row.Some? && PaidUp(c.row.value.status) { PaidAfterMove(s, m, k); }
  }

  lemma PaidAfterMove(s: State, m: Move, k: Id)
    requires Inv(s) && Enabled(s, m) && At(s, k).row.Some? && PaidUp(At(s, k).row.value.status)
    ensures At(Apply(s, m), k).row.Some? && PaidUp(At(Apply(s, m), k).row.value.status)
  {
    MoveKeepsInv(s, m);
    MoveEvolves(s, m, k);
    assert CellFits(s, k) && CellFits(Apply(s, m), k);
    PaidRowStaysPaidLater(At(s, k), At(Apply(s, m), k), k);
  }

  /** Once something was reserved the row is and stays paid up. */
  lemma {:induction false} ReservesImplyPaid(s: State, run: seq<Move>, k: Id)
    requires Inv(s) && Legal(s, run) && ReservedOnlyPaid(At(s, k))
    ensures ReservedOnlyPaid(At(Exec(s, run), k))
    decreases |run|
  {
    if run != [] {
      MoveKeepsInv(s, run[0]);
      MoveReservesOnlyPaid(s, run[0], k);
      ReservesImplyPaid(Apply(s, run[0]), run[1..], k);
    }
  }

  // ---------- contention ----------

  lemma {:induction false} RanksCountUp(h: seq<Commit>, i: nat)
    requires LegalHistory(h) && i < |h|
    ensures i <= Rank(h[i].row.status)
  {
    if i > 0 {
      RanksCountUp(h, i - 1);
      assert Rank(h[i - 1].row.status) < Rank(h[i].row.status);
    }
  }

  /** At most four conditional writes ever change a row after its insert. */
  lemma AtMostFourWrites(run: seq<Move>, k: Id)
    requires Legal(INIT, run)
    ensures |At(Exec(INIT, run), k).commits| <= 1 + 4
  {
    Reached(run, k);
    var h := At(Exec(INIT, run), k).commits;
    if h != [] { RanksCountUp(h, |h| - 1); }
  }

  /** A row in a terminal status never changes again, in no continuation of the run. */
  lemma TerminalIsAbsorbing(run: seq<Move>, more: seq<Move>, k: Id)
    requires Legal(INIT, run + more) && Legal(INIT, run)
    ensures var c, later := At(Exec(INIT, run), k), At(Exec(INIT, run + more), k);
            c.row.Some? && Terminal(c.row.value.status) ==> later.row == c.row && later.commits == c.commits
  {
    hide CellInv;
    Reached(run, k);
    Reached(run + more, k);
    Continue(run, more, k);
    var c, later := At(Exec(INIT, run), k), At(Exec(INIT, run + more), k);
    if c.row.Some? && Terminal(c.row.value.status) { TerminalCellStays(c, later, k); }
  }

  lemma TerminalCellStays(c: Cell, later: Cell, k: Id)
    requires CellInv(c, k) && CellInv(later, k) && Evolves(c, later)
    requires c.row.Some? && Terminal(c.row.value.status)
    ensures later.row == c.row && later.commits == c.commits
  {
    var i, last := |c.commits| - 1, |later.commits| - 1;
    assert later.commits[i] == c.commits[i];
    assert Rank(later.commits[i].row.status) <= Rank(later.commits[last].row.status) <= 4;
  }

  /** A conditional write is lost only to a worker that moved the same row strictly further. */
  lemma LostWriteMeansOthersProgress(run: seq<Move>, w: nat)
    requires Legal(INIT, run) && Enabled(Exec(INIT, run), Act(w, Db(Executed)))
    requires Exec(INIT, run).workers[w].pc.Writing?
    ensures var s := Exec(INIT, run);
            var c, p := At(s, s.workers[w].id), s.workers[w].pc.previous;
            At(Apply(s, Act(w, Db(Executed))), s.workers[w].id).row == c.row ==>
              exists i :: 0 <= i < |c.commits| && c.commits[i].author != w && Rank(p.status) < Rank(c.commits[i].row.status)
  {
    ReachedWorker(run, w);
    StatusComparisonComparesRow(run, w, Executed);
    var s := Exec(INIT, run);
    var x := s.workers[w];
    var c := At(s, x.id);
    if !RowMatches(c, x.pc.previous.status) {
      ConflictMeansProgress(c, x.id, x.pc.previous);
      var last := |c.commits| - 1;
      assert c.commits[last].row == c.row.value;
      assert c.commits[last].author != w;
    }
  }

  /** An upper bound on the actions a worker can still take. */
  function Distance(pc: PC): nat {
    match pc
    case Inserting(_) => 12
    case Finding => 8
    case LookingUp(_) => 7
    case SendingCharge(_) => 10
    case AwaitingCharge(_) => 9
    case Writing(_, _, g) => if g == Created then 12 else if g == Unreserved || g == Fulfilled then 3 else 6
    case Announcing(_, g) => if g == Created then 11 else if g == Unreserved || g == Fulfilled then 2 else 5
    case Reserving(_) => 4
    case Reloading(_, _) => 1
    case Returned(_, _) => 0
    case Finished(_) => 0
  }

  function ActionsOf(run: seq<Move>, w: nat): nat {
    if run == [] then 0
    else (if run[0].Act? && run[0].w == w then 1 else 0) + ActionsOf(run[1..], w)
  }

  lemma ActionsCountDown(c: Cell, x: Worker, r: Reaction)
    requires Possible(c, x, r)
    ensures Distance(NextPC(c, x, r)) < Distance(x.pc)
  {
  }

  /** Every call ends after at most twelve actions of its own, whatever the others do. */
  lemma {:induction false} EveryCallEnds(s: State, run: seq<Move>, w: nat)
    requires Legal(s, run) && w < |s.workers|
    ensures w < |Exec(s, run).workers|
    ensures ActionsOf(run, w) + Distance(Exec(s, run).workers[w].pc) <= Distance(s.workers[w].pc) <= 12
    decreases |run|
  {
    if run != [] {
      var m := run[0];
      if m.Act? && m.w == w { ActionsCountDown(At(s, s.workers[w].id), s.workers[w], m.reaction); }
      EveryCallEnds(Apply(s, m), run[1..], w);
    }
  }

  // ---------- events ----------

  /** Each event name is announced at most once per order, and only for a committed state. */
  lemma EventsNeverLieOrRepeat(run: seq<Move>, k: Id)
    requires Legal(INIT, run)
    ensures var c := At(Exec(INIT, run), k);
            && (forall e, f :: 0 <= e < f < |c.emitted| ==> c.emitted[e] != c.emitted[f])
            && (forall name :: name in c.emitted ==> exists o :: o in States(c) && EventName(o.status) == name)
  {
    Reached(run, k);
    var c := At(Exec(INIT, run), k);
    forall name | name in c.emitted ensures exists o :: o in States(c) && EventName(o.status) == name {
      var e :| 0 <= e < |c.emitted| && c.emitted[e] == name;
      assert Witnessed(c, c.emitted[e], None);
      var i :| 0 <= i < |c.commits| && c.commits[i].acked && EventName(c.commits[i].row.status) == name;
      assert States(c)[i] == c.commits[i].row;
    }
  }

  /** When every worker of an order has finished, its event log holds exactly the states whose write
      was acknowledged, each once.  So it holds all committed states if and only if no write was
      reported to its author as an error. */
  lemma EventLogIsCompleteAtQuiescence(run: seq<Move>, k: Id)
    requires Legal(INIT, run)
    requires forall w :: 0 <= w < |Exec(INIT, run).workers| && Exec(INIT, run).workers[w].id == k ==>
               Done(Exec(INIT, run).workers[w])
    ensures var c := At(Exec(INIT, run), k);
            && (forall i :: 0 <= i < |c.commits| ==>
                  (EventName(c.commits[i].row.status) in c.emitted <==> c.commits[i].acked))
            && (forall e, f :: 0 <= e < f < |c.emitted| ==> c.emitted[e] != c.emitted[f])
  {
    ReachableInv(run);
    var s := Exec(INIT, run);
    assert CellFits(s, k);
    var c := At(s, k);
    forall i | 0 <= i < |c.commits|
      ensures EventName(c.commits[i].row.status) in c.emitted <==> c.commits[i].acked
    {
      var w := c.commits[i].author;
      assert WorkerFits(s, w) && Done(s.workers[w]);
      if EventName(c.commits[i].row.status) in c.emitted {
        var e :| 0 <= e < |c.emitted| && c.emitted[e] == EventName(c.commits[i].row.status);
        assert Witnessed(c, c.emitted[e], None);
        var j :| 0 <= j < |c.commits| && c.commits[j].acked && EventName(c.commits[j].row.status) == c.emitted[e];
        if i != j { CommitNamesDiffer(c.commits, i, j); }
      }
    }
  }

  // ---------- the table ----------

  /** What a move does to the orders table: nothing, one INSERT or one conditional UPDATE. */
  function TableAfter(s: State, m: Move): map<Id, Row>
    requires Enabled(s, m)
  {
    if m.Act? && m.reaction.Db? && TakesEffect(m.reaction.reply) then
      match s.workers[m.w].pc
      case Inserting(o) => Insert(Table(s), o)
      case Writing(p, n, _) => Update(Table(s), n, p.status)
      case _ => Table(s)
    else if m.WriteLate? then
      var l := s.late[m.i];
      if l.previous.None? then Insert(Table(s), l.next) else Update(Table(s), l.next, l.previous.value.status)
    else Table(s)
  }

  /** The protocol's steps act on the orders table through the repository's two statements only. */
  lemma MovesActThroughStatements(run: seq<Move>, m: Move)
    requires Legal(INIT, run) && Enabled(Exec(INIT, run), m)
    ensures Table(Apply(Exec(INIT, run), m)) == TableAfter(Exec(INIT, run), m)
  {
    var s := Exec(INIT, run);
    if m.Act? {
      ReachedWorker(run, m.w);
      ActOnTable(s, m.w, m.reaction);
    } else if m.WriteLate? {
      ReachableInv(run);
      LateOnTable(s, m.i);
    } else {
      forall k ensures At(Apply(s, m), k).row == At(s, k).row { }
      SameRowsSameTable(s, Apply(s, m));
    }
  }

  lemma TableHas(s: State, k: Id)
    ensures k in Table(s) <==> At(s, k).row.Some?
    ensures k in Table(s) ==> Table(s)[k] == ToRow(At(s, k).row.value)
  {
  }

  /** In every reachable state an order is up for recovery if and only if it is stored, old enough and
      neither completed nor failed. */
  lemma UnfinishedOrdersAreEligible(run: seq<Move>, k: Id, olderThan: int)
    requires Legal(INIT, run)
    ensures var s := Exec(INIT, run);
            k in Eligible(Table(s), olderThan) <==>
              && At(s, k).row.Some? && At(s, k).row.value.createdAt <= olderThan
              && At(s, k).row.value.status != Completed && At(s, k).row.value.status != Failed
  {
    TableHas(Exec(INIT, run), k);
    EligibleIffUnfinishedAndOld(Table(Exec(INIT, run)), olderThan);
  }

  lemma SameRowsSameTable(s: State, t: State)
    requires forall k :: At(t, k).row == At(s, k).row
    ensures Table(t) == Table(s)
  {
    forall k ensures k in Table(t) <==> k in Table(s) { TableHas(s, k); TableHas(t, k); }
    forall k | k in Table(s) ensures Table(t)[k] == Table(s)[k] { TableHas(s, k); TableHas(t, k); }
  }

  lemma OneRowChanged(s: State, t: State, k: Id, o: OrderData)
    requires At(t, k).row == Some(o) && forall j :: j != k ==> At(t, j).row == At(s, j).row
    ensures Table(t) == Table(s)[k := ToRow(o)]
  {
    forall j ensures j in Table(t) <==> j in Table(s)[k := ToRow(o)] { TableHas(s, j); TableHas(t, j); }
    forall j | j in Table(t) ensures Table(t)[j] == Table(s)[k := ToRow(o)][j] { TableHas(s, j); TableHas(t, j); }
  }

  lemma ActOnTable(s: State, w: nat, r: Reaction)
    requires Enabled(s, Act(w, r)) && Good(At(s, s.workers[w].id), s.workers[w].id, w, s.workers[w])
    ensures Table(Apply(s, Act(w, r))) == TableAfter(s, Act(w, r))
  {
    var x := s.workers[w];
    var s' := Apply(s, Act(w, r));
    if x.pc.Inserting? {
      InsertOnTable(s, s', x.pc.order, w, r.reply);
    } else if x.pc.Writing? {
      UpdateOnTable(s, s', x.id, x.pc.previous, x.pc.next, w, r.reply);
    } else {
      forall j ensures At(s', j).row == At(s, j).row { }
      SameRowsSameTable(s, s');
    }
  }

  lemma LateOnTable(s: State, i: nat)
    requires Inv(s) && i < |s.late|
    ensures Table(Apply(s, WriteLate(i))) == TableAfter(s, WriteLate(i))
  {
    var l := s.late[i];
    var s' := Apply(s, WriteLate(i));
    assert LateFits(At(s, l.next.id), l, s.workers) && CellFits(s, l.next.id);
    match l.previous
    case None => InsertOnTable(s, s', l.next, l.author, ErrorAfter);
    case Some(p) => UpdateOnTable(s, s', l.next.id, p, l.next, l.author, ErrorAfter);
  }

  lemma InsertOnTable(s: State, s': State, o: OrderData, w: nat, reply: DbReply)
    requires s'.cells == s.cells[o.id := InsertRow(At(s, o.id), o, w, reply)]
    ensures Table(s') == if !TakesEffect(reply) then Table(s) else Insert(Table(s), o)
  {
    TableHas(s, o.id);
    forall j | j != o.id ensures At(s', j).row == At(s, j).row { }
    if !TakesEffect(reply) || At(s, o.id).row.Some? { SameRowsSameTable(s, s'); } else { OneRowChanged(s, s', o.id, o); }
  }

  lemma UpdateOnTable(s: State, s': State, k: Id, p: OrderData, n: OrderData, w: nat, reply: DbReply)
    requires CellInv(At(s, k), k) && Held(At(s, k), p) && Succeeds(p, n)
    requires s'.cells == s.cells[k := UpdateRow(At(s, k), n, p.status, w, reply)]
    ensures Table(s') == if !TakesEffect(reply) then Table(s) else Update(Table(s), n, p.status)
  {
    hide CellInv;
    var c := At(s, k);
    TableHas(s, k);
    HeldHasId(c, k, p);
    SuccessorRaisesRank(p, n);
    forall j | j != k ensures At(s', j).row == At(s, j).row { }
    if !TakesEffect(reply) || !RowMatches(c, p.status) {
      SameRowsSameTable(s, s');
    } else {
      OneRowChanged(s, s', k, c.row.value.(status := n.status, paymentReference := n.paymentReference));
    }
  }

  lemma HeldHasId(c: Cell, k: Id, o: OrderData)
    requires CellInv(c, k) && Held(c, o)
    ensures o.id == k && c.row.Some? && c.row.value.id == k
  {
    assert c.row.value == c.commits[|c.commits| - 1].row;
  }
}
