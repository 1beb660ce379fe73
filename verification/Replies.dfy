/** What each reply of the outside leads to, in every run and for every worker: the row that is about to
    be written, the result, and the response. */
module Replies {
  import opened Common
  import opened Domain
  import opened Payment
  import opened Orders
  import opened Protocol
  import opened ProtocolInvariant
  import opened ProtocolSteps
  import opened Guarantees

  /** The request is about to write, over its pending row, what the reply to its charge says: an
      approval as paid with its reference, a decline or a definite rejection as failed, anything
      else as unknown. */
  lemma ChargeReplyIsWritten(run: seq<Move>, w: nat, r: ChargeReply)
    requires Legal(INIT, run) && Enabled(Exec(INIT, run), Act(w, ChargeReturned(r)))
    ensures var s := Exec(INIT, run);
            var pending, pc := At(s, s.workers[w].id).commits, Apply(s, Act(w, ChargeReturned(r))).workers[w].pc;
            && pc.Writing? && pending != [] && pending[0].author == w && pc.previous == pending[0].row
            && pc.previous.status == Pending
            && pc.next ==
               match r {
                 case Charged(res) =>
                   if res.status == "approved" then pc.previous.(status := Paid, paymentReference := res.reference)
                   else pc.previous.(status := if res.status == "declined" then Failed else PaymentUnknown)
                 case ChargeFailed(e) =>
                   pc.previous.(status := if e.HttpStatus? && e.code < 500 && e.code !in {408, 409, 425, 429}
                                          then Failed else PaymentUnknown)
               }
  {
    hide CellInv;
    ReachedWorker(run, w);
    var s := Exec(INIT, run);
    FirstOrderIsFresh(At(s, s.workers[w].id), s.workers[w].id);
  }

  /** After a reservation the order is about to be written as completed.  After a failed one a paid
      order is about to be written as pending fulfilment, by a request as by a recovery; a recovery
      of one that is pending fulfilment already ends with an error. */
  lemma ReservationReplyIsWritten(run: seq<Move>, w: nat, effect: bool, ok: bool)
    requires Legal(INIT, run) && Enabled(Exec(INIT, run), Act(w, ReserveReturned(effect, ok)))
    ensures var s := Exec(INIT, run);
            var x, pc := s.workers[w], Apply(s, Act(w, ReserveReturned(effect, ok))).workers[w].pc;
            var o := x.pc.order;
            && Held(At(s, x.id), o) && (o.status == Paid || (o.status == FulfillmentPending && x.side == Recovery))
            && if ok || o.status == Paid then
                 pc.Writing? && pc.previous == o && pc.next == o.(status := if ok then Completed else FulfillmentPending)
               else pc == Finished(false)
  {
    hide CellInv;
    ReachedWorker(run, w);
  }

  /** A recovery ends with an error when the lookup failed, when the status is not a known one and when
      an approval has no reference; without one when there is no record; and otherwise it is about
      to write what the provider said over the row it read. */
  lemma LookupReplyIsWritten(run: seq<Move>, w: nat, l: LookupReply)
    requires Legal(INIT, run) && Enabled(Exec(INIT, run), Act(w, LookupReturned(l)))
    ensures var s := Exec(INIT, run);
            var x, pc := s.workers[w], Apply(s, Act(w, LookupReturned(l))).workers[w].pc;
            var o := x.pc.order;
            && Held(At(s, x.id), o) && (o.status == Pending || o.status == PaymentUnknown) && x.side == Recovery
            && match l
               case LookupFailed => pc == Finished(false)
               case NotFound => pc == Finished(true)
               case Found(res) =>
                 if res.status == "approved" && res.reference != "" then
                   pc.Writing? && pc.previous == o && pc.next == o.(status := Paid, paymentReference := res.reference)
                 else if res.status == "declined" then
                   pc.Writing? && pc.previous == o && pc.next == o.(status := Failed)
                 else pc == Finished(false)
  {
    hide CellInv;
    ReachedWorker(run, w);
  }

  /** How a request ends when its write is reported as an error: with the order as it was before, and
      502 after a definite rejection, 500 after a decline, 202 in every other case. */
  lemma FailedWriteIsAnswered(run: seq<Move>, w: nat, reply: DbReply)
    requires Legal(INIT, run) && Enabled(Exec(INIT, run), Act(w, Db(reply))) && reply != Executed
    requires Exec(INIT, run).workers[w].pc.Writing?
    ensures var s := Exec(INIT, run);
            var x, pc := s.workers[w], Apply(s, Act(w, Db(reply))).workers[w].pc;
            if x.side == Recovery then pc == Finished(false)
            else
              && pc.Returned? && pc.result == Some(x.pc.previous) && Port in pc.err
              && (x.pc.goal == Refusal || x.pc.goal == DeclinedCharge ==> x.pc.next.status == Failed)
              && HttpStatusOf(pc.result, pc.err) ==
                 if x.pc.goal == Refusal then 502 else if x.pc.next.status == Failed then 500 else 202
  {
    hide CellInv;
    ReachedWorker(run, w);
  }

  /** A write that found the row in another status makes a request reload it, and ends a recovery:
      without an error, unless it was to record a failed reservation. */
  lemma LostWriteIsAnswered(run: seq<Move>, w: nat)
    requires Legal(INIT, run) && Enabled(Exec(INIT, run), Act(w, Db(Executed)))
    requires Exec(INIT, run).workers[w].pc.Writing?
    ensures var s := Exec(INIT, run);
            var x, pc := s.workers[w], Apply(s, Act(w, Db(Executed))).workers[w].pc;
            var c := At(s, x.id);
            if c.row.Some? && c.row.value.status == x.pc.previous.status then pc == Announcing(x.pc.next, x.pc.goal)
            else if x.side == Foreground then pc == Reloading(x.pc.previous, x.pc.goal)
            else pc == Finished(x.pc.next.status != FulfillmentPending)
  {
    hide CellInv;
    ReachedWorker(run, w);
  }

  /** After the reload, and after a failed one, the answer is 202: with the row that is there, or with
      the order as it was before. */
  lemma ReloadIsAnswered(run: seq<Move>, w: nat, ok: bool)
    requires Legal(INIT, run) && Enabled(Exec(INIT, run), Act(w, RowRead(ok)))
    requires Exec(INIT, run).workers[w].pc.Reloading?
    ensures var s := Exec(INIT, run);
            var x, pc := s.workers[w], Apply(s, Act(w, RowRead(ok))).workers[w].pc;
            && pc.Returned? && pc.result == (if ok then At(s, x.id).row else Some(x.pc.previous)) && pc.result.Some?
            && ConcurrentStateChange in pc.err && (Port in pc.err <==> !ok)
            && HttpStatusOf(pc.result, pc.err) == 202
  {
    hide CellInv;
    ReachedWorker(run, w);
  }

  /** An insert that failed, or that found its ID taken, is answered with 500 and no order. */
  lemma FailedInsertIsAnswered(run: seq<Move>, w: nat, reply: DbReply)
    requires Legal(INIT, run) && Enabled(Exec(INIT, run), Act(w, Db(reply)))
    requires Exec(INIT, run).workers[w].pc.Inserting?
    ensures var s := Exec(INIT, run);
            var x, t := s.workers[w], Apply(s, Act(w, Db(reply)));
            && (At(s, x.id).row.Some? ==> At(t, x.id) == At(s, x.id))
            && if reply == Executed && At(s, x.id).row.None? then
                 t.workers[w].pc == Announcing(x.pc.order, Created) && At(t, x.id).row == Some(x.pc.order)
               else
                 t.workers[w].pc == Returned(None, {Port}) && HttpStatusOf(None, {Port}) == 500
  {
    hide CellInv;
    ReachedWorker(run, w);
  }
}
