/** The invariant of the protocol and its preservation by every move.  The proof is by
    rely and guarantee: each action keeps the invariant of its cell and of its worker, and what it
    may change in the cell never disturbs another worker. */
module ProtocolInvariant {
  import opened Common
  import opened Domain
  import opened Payment
  import opened Orders
  import opened Protocol

  // ---------- one cell ----------

  predicate PaidUp(s: OrderStatus) { s == Paid || s == FulfillmentPending || s == Completed }

  /** What a stored state claims about the charge is what the provider has decided. */
  predicate Truth(d: Decision, o: OrderData) {
    if PaidUp(o.status) then o.paymentReference != "" && d == Approved(o.paymentReference)
    else o.paymentReference == "" && (o.status == Failed ==> Refused(d))
  }

  /** The committed states are one legal life of one aggregate. */
  ghost predicate LegalHistory(h: seq<Commit>) {
    && (h != [] ==> Fresh(h[0].row))
    && (forall i :: 0 < i < |h| ==> Succeeds(h[i - 1].row, h[i].row))
    && (forall i, j :: 0 <= i < j < |h| ==> Rank(h[i].row.status) < Rank(h[j].row.status))
  }

  ghost predicate HistoryFits(c: Cell, k: Id) {
    forall i :: 0 <= i < |c.commits| ==>
      && c.commits[i].row.id == k && c.commits[i].row.items == c.commits[0].row.items
      && c.commits[i].row.customerId == c.commits[0].row.customerId
      && Truth(c.decision, c.commits[i].row)
      && (c.commits[i].row.status == Completed ==> c.reserved.Some?)
  }

  predicate Opened(c: Cell, w: WorkerId) {
    c.commits != [] && c.commits[0].author == w && c.commits[0].acked
  }

  ghost predicate ChargesFit(c: Cell, k: Id) {
    && |c.charges| <= 1
    && (c.charges != [] ==>
          Opened(c, c.charges[0].author) &&
          c.charges[0] == ChargeCall(c.commits[0].author, k, c.commits[0].row.customerId, TotalCents(c.commits[0].row.items)))
    && (c.inflight || c.decision != Undecided ==> c.charges != [])
  }

  ghost predicate ReservesFit(c: Cell, k: Id) {
    && (c.reserved.Some? ==> c.commits != [] && c.reserved.value == c.commits[0].row.items)
    && (forall i :: 0 <= i < |c.reserves| ==>
          && c.commits != [] && c.reserves[i].key == k && c.reserves[i].items == c.commits[0].row.items
          && c.reserves[i].seen.Some? && PaidUp(c.reserves[i].seen.value))
  }

  /** The event name belongs to a committed write whose author (one of the allowed) was told so. */
  ghost predicate Witnessed(c: Cell, name: string, who: Option<WorkerId>) {
    exists i :: 0 <= i < |c.commits| && c.commits[i].acked && EventName(c.commits[i].row.status) == name
                && (who.Some? ==> c.commits[i].author == who.value)
  }

  ghost predicate EventsFit(c: Cell) {
    && (forall e :: 0 <= e < |c.emitted| ==> Witnessed(c, c.emitted[e], None))
    && (forall e, f :: 0 <= e < f < |c.emitted| ==> c.emitted[e] != c.emitted[f])
  }

  ghost predicate CellInv(c: Cell, k: Id) {
    && c.row == (if c.commits == [] then None else Some(c.commits[|c.commits| - 1].row))
    && LegalHistory(c.commits)
    && HistoryFits(c, k)
    && ChargesFit(c, k)
    && ReservesFit(c, k)
    && EventsFit(c)
  }

  // ---------- one worker ----------

  ghost predicate Held(c: Cell, o: OrderData) {
    exists i :: 0 <= i < |c.commits| && c.commits[i].row == o
  }

  /** The worker has committed nothing later than o. */
  ghost predicate NothingLater(c: Cell, w: WorkerId, o: OrderData) {
    forall i :: 0 <= i < |c.commits| && c.commits[i].author == w ==> Rank(c.commits[i].row.status) <= Rank(o.status)
  }

  ghost predicate NoCommitBy(c: Cell, w: WorkerId) {
    forall i :: 0 <= i < |c.commits| ==> c.commits[i].author != w
  }

  predicate ChargedBy(c: Cell, w: WorkerId) { c.charges != [] && c.charges[0].author == w }

  /** Which state a goal writes, and what the worker that has it did before. */
  predicate GoalFits(c: Cell, w: WorkerId, side: Side, o: OrderData, g: Goal) {
    && (side == Foreground ==> Opened(c, w) && (g == Created || ChargedBy(c, w)))
    && (side == Recovery ==> g == Resolved || g == Unreserved || g == Fulfilled)
    && match g
       case Created => o.status == Pending && c.charges == []
       case Unclear => o.status == PaymentUnknown
       case BadStatus => o.status == PaymentUnknown
       case Refusal => o.status == Failed
       case DeclinedCharge => o.status == Failed
       case ApprovedCharge => o.status == Paid
       case Resolved => side == Recovery && (o.status == Paid || o.status == Failed)
       case Unreserved => o.status == FulfillmentPending
       case Fulfilled => o.status == Completed
  }

  // ---------- the HTTP status of a result ----------

  predicate IsValidationError(err: Error) {
    NilRequest in err || InvalidCustomerTier in err || EmptyCustomer in err || EmptyOrder in err || InvalidOrderItem in err
  }

  /** The status the handler chooses for what Execute returned. */
  function HttpStatusOf(result: Option<OrderData>, err: Error): int {
    if err != Nil then
      if (PaymentUncertain in err || FulfillmentPendingError in err) && result.Some? then 202
      else if PaymentRejected in err && result.Some? then 502
      else if IsValidationError(err) then 400
      else 500
    else if result.Some? && result.value.status == Failed then 402
    else 201
  }

  predicate Welcomes(code: int) { code == 201 || code == 202 }

  /** What a finished request may have told its caller. */
  ghost predicate ResultFits(c: Cell, w: WorkerId, result: Option<OrderData>, err: Error) {
    && (result.None? ==> err != Nil && !ChargedBy(c, w))
    && (result.Some? ==> Held(c, result.value))
    && (err == Nil ==> result.Some? && Terminal(result.value.status))
    && !IsValidationError(err)
    && (ChargedBy(c, w) && !Welcomes(HttpStatusOf(result, err)) ==> Refused(c.decision))
    && (result.Some? && ConcurrentStateChange !in err && result.value.status == Completed ==> err == Nil)
  }

  ghost predicate PcInv(c: Cell, w: WorkerId, x: Worker) {
    match x.pc
    case Inserting(o) =>
      x.side == Foreground && Fresh(o) && o.id == x.id && NoCommitBy(c, w) && !ChargedBy(c, w)
    case Announcing(o, g) =>
      && (exists i :: 0 <= i < |c.commits| && c.commits[i] == Commit(o, w, true))
      && EventName(o.status) !in c.emitted && NothingLater(c, w, o) && GoalFits(c, w, x.side, o, g)
    case SendingCharge(o) =>
      x.side == Foreground && Opened(c, w) && o == c.commits[0].row && c.charges == [] && NothingLater(c, w, o)
    case AwaitingCharge(o) =>
      x.side == Foreground && Opened(c, w) && o == c.commits[0].row && ChargedBy(c, w) && NothingLater(c, w, o)
    case Writing(p, n, g) =>
      && Held(c, p) && Succeeds(p, n) && Truth(c.decision, n) && NothingLater(c, w, p)
      && (n.status == Completed ==> c.reserved.Some?)
      && g != Created && GoalFits(c, w, x.side, n, g)
    case Reloading(p, g) =>
      x.side == Foreground && Held(c, p) && Opened(c, w) && NothingLater(c, w, p)
      && c.row.Some? && Rank(p.status) < Rank(c.row.value.status)
    case Reserving(o) =>
      && Held(c, o) && (o.status == Paid || o.status == FulfillmentPending) && NothingLater(c, w, o)
      && (x.side == Foreground ==> o.status == Paid && Opened(c, w) && ChargedBy(c, w))
    case Finding => x.side == Recovery && NoCommitBy(c, w)
    case LookingUp(o) =>
      x.side == Recovery && Held(c, o) && (o.status == Pending || o.status == PaymentUnknown) && NothingLater(c, w, o)
    case Returned(result, err) => x.side == Foreground && ResultFits(c, w, result, err)
    case Finished(_) => x.side == Recovery
  }

  /** Every write this worker was told about has been announced, or is the one it is announcing. */
  ghost predicate KeepsWord(c: Cell, w: WorkerId, x: Worker) {
    forall i :: 0 <= i < |c.commits| && c.commits[i].author == w && c.commits[i].acked ==>
      EventName(c.commits[i].row.status) in c.emitted || (x.pc.Announcing? && x.pc.order == c.commits[i].row)
  }

  ghost predicate WorkerInv(c: Cell, w: WorkerId, x: Worker) {
    PcInv(c, w, x) && KeepsWord(c, w, x) && (x.side == Recovery ==> !ChargedBy(c, w))
  }

  // ---------- rely and guarantee ----------

  /** How a cell may change when only `who` (or only the outside world) writes to it. */
  ghost predicate Change(c: Cell, c': Cell, who: Option<WorkerId>) {
    && |c.commits| <= |c'.commits|
    && (forall i :: 0 <= i < |c.commits| ==> c'.commits[i] == c.commits[i])
    && (forall i :: |c.commits| <= i < |c'.commits| ==> Some(c'.commits[i].author) == who)
    && (c.decision != Undecided ==> c'.decision == c.decision)
    && |c.charges| <= |c'.charges|
    && (forall i :: 0 <= i < |c.charges| ==> c'.charges[i] == c.charges[i])
    && (forall i :: |c.charges| <= i < |c'.charges| ==> Some(c'.charges[i].author) == who)
    && (c.reserved.Some? ==> c'.reserved == c.reserved)
    && |c.emitted| <= |c'.emitted|
    && (forall e :: 0 <= e < |c.emitted| ==> c'.emitted[e] == c.emitted[e])
    && (forall e :: |c.emitted| <= e < |c'.emitted| ==> who.Some? && Witnessed(c', c'.emitted[e], who))
  }

  lemma EventNamesDiffer(a: OrderStatus, b: OrderStatus)
    requires a != b
    ensures EventName(a) != EventName(b)
  {
    assert |EventName(Pending)| == 13 && |EventName(Paid)| == 10 && |EventName(Failed)| == 12;
    assert |EventName(PaymentUnknown)| == 21 && |EventName(FulfillmentPending)| == 25 && |EventName(Completed)| == 15;
  }

  lemma HeldStays(c: Cell, c': Cell, who: Option<WorkerId>, o: OrderData)
    requires Change(c, c', who) && Held(c, o)
    ensures Held(c', o)
  {
    var i :| 0 <= i < |c.commits| && c.commits[i].row == o;
    assert c'.commits[i].row == o;
  }

  lemma EmittedStays(c: Cell, c': Cell, who: Option<WorkerId>, name: string)
    requires Change(c, c', who) && name in c.emitted
    ensures name in c'.emitted
  {
    var e :| 0 <= e < |c.emitted| && c.emitted[e] == name;
    assert c'.emitted[e] == name;
  }

  /** The names of two committed writes differ. */
  lemma CommitNamesDiffer(h: seq<Commit>, i: nat, j: nat)
    requires LegalHistory(h) && i < |h| && j < |h| && i != j
    ensures EventName(h[i].row.status) != EventName(h[j].row.status)
  {
    assert h[i].row.status != h[j].row.status;
    EventNamesDiffer(h[i].row.status, h[j].row.status);
  }

  /** A name that a worker has still to announce is not announced by anyone else. */
  lemma AnnouncementStaysMine(c: Cell, c': Cell, who: Option<WorkerId>, w: WorkerId, o: OrderData)
    requires LegalHistory(c'.commits) && Change(c, c', who) && who != Some(w)
    requires exists i :: 0 <= i < |c.commits| && c.commits[i] == Commit(o, w, true)
    requires EventName(o.status) !in c.emitted
    ensures EventName(o.status) !in c'.emitted
  {
    var i :| 0 <= i < |c.commits| && c.commits[i] == Commit(o, w, true);
    forall e | 0 <= e < |c'.emitted| ensures c'.emitted[e] != EventName(o.status) {
      if e >= |c.emitted| {
        assert Witnessed(c', c'.emitted[e], who);
        var j :| 0 <= j < |c'.commits| && c'.commits[j].acked && EventName(c'.commits[j].row.status) == c'.emitted[e]
                 && (who.Some? ==> c'.commits[j].author == who.value);
        assert c'.commits[i] == c.commits[i];
        CommitNamesDiffer(c'.commits, i, j);
      }
    }
  }

  /** What a worker knows about its own part of the cell stays true while others write. */
  lemma OwnPartStays(c: Cell, c': Cell, who: Option<WorkerId>, k: Id, w: WorkerId)
    requires ChargesFit(c', k) && Change(c, c', who) && who != Some(w)
    ensures Opened(c, w) ==> Opened(c', w) && c'.commits[0] == c.commits[0]
    ensures ChargedBy(c', w) == ChargedBy(c, w)
    ensures Opened(c, w) && c.charges == [] ==> c'.charges == []
    ensures NoCommitBy(c, w) ==> NoCommitBy(c', w)
    ensures forall o :: NothingLater(c, w, o) ==> NothingLater(c', w, o)
  {
    assert forall i :: 0 <= i < |c'.commits| && c'.commits[i].author == w ==> i < |c.commits|;
    if c.charges == [] && c'.charges != [] {
      assert Some(c'.charges[0].author) == who;
    }
  }

  lemma KeepsWordStable(c: Cell, c': Cell, who: Option<WorkerId>, w: WorkerId, x: Worker)
    requires Change(c, c', who) && who != Some(w) && KeepsWord(c, w, x)
    ensures KeepsWord(c', w, x)
  {
    forall i | 0 <= i < |c'.commits| && c'.commits[i].author == w && c'.commits[i].acked
      ensures EventName(c'.commits[i].row.status) in c'.emitted || (x.pc.Announcing? && x.pc.order == c'.commits[i].row)
    {
      assert c.commits[i] == c'.commits[i];
      if EventName(c.commits[i].row.status) in c.emitted { EmittedStays(c, c', who, EventName(c.commits[i].row.status)); }
    }
  }

  lemma RowRankGrows(c: Cell, c': Cell, who: Option<WorkerId>, k: Id)
    requires CellInv(c, k) && CellInv(c', k) && Change(c, c', who) && c.row.Some?
    ensures c'.row.Some? && Rank(c.row.value.status) <= Rank(c'.row.value.status)
  {
    assert c'.commits[|c.commits| - 1].row == c.row.value;
  }

  /** All that a worker's invariant needs of a change made by others. */
  ghost predicate Undisturbed(c: Cell, c': Cell, w: WorkerId) {
    && (Opened(c, w) ==> Opened(c', w) && c'.commits[0] == c.commits[0])
    && ChargedBy(c', w) == ChargedBy(c, w)
    && (Opened(c, w) && c.charges == [] ==> c'.charges == [])
    && (NoCommitBy(c, w) ==> NoCommitBy(c', w))
    && (forall o :: NothingLater(c, w, o) ==> NothingLater(c', w, o))
    && (forall o :: Held(c, o) ==> Held(c', o))
    && (c.reserved.Some? ==> c'.reserved.Some?)
    && (c.decision != Undecided ==> c'.decision == c.decision)
    && (c.row.Some? ==> c'.row.Some? && Rank(c.row.value.status) <= Rank(c'.row.value.status))
  }

  lemma OthersLeaveUndisturbed(c: Cell, c': Cell, who: Option<WorkerId>, k: Id, w: WorkerId)
    requires CellInv(c, k) && CellInv(c', k) && Change(c, c', who) && who != Some(w)
    ensures Undisturbed(c, c', w)
  {
    OwnPartStays(c, c', who, k, w);
    if c.row.Some? { RowRankGrows(c, c', who, k); }
    forall o | Held(c, o) ensures Held(c', o) { HeldStays(c, c', who, o); }
  }

  lemma PcStable(c: Cell, c': Cell, w: WorkerId, x: Worker)
    requires Undisturbed(c, c', w) && PcInv(c, w, x) && !x.pc.Announcing?
    ensures PcInv(c', w, x)
  {
    match x.pc
    case Inserting(o) =>
    case SendingCharge(o) =>
    case AwaitingCharge(o) =>
    case Writing(p, n, g) =>
    case Reloading(p, g) =>
    case Reserving(o) =>
    case Finding =>
    case LookingUp(o) =>
    case Returned(result, err) =>
    case Finished(_) =>
  }

  lemma AnnouncingStable(c: Cell, c': Cell, who: Option<WorkerId>, w: WorkerId, x: Worker)
    requires Undisturbed(c, c', w) && LegalHistory(c'.commits) && Change(c, c', who) && who != Some(w)
    requires PcInv(c, w, x) && x.pc.Announcing?
    ensures PcInv(c', w, x)
  {
    AnnouncementStaysMine(c, c', who, w, x.pc.order);
    var i :| 0 <= i < |c.commits| && c.commits[i] == Commit(x.pc.order, w, true);
    assert c'.commits[i] == Commit(x.pc.order, w, true);
  }

  /** What others do never breaks a worker's invariant. */
  lemma WorkerStable(c: Cell, c': Cell, who: Option<WorkerId>, k: Id, w: WorkerId, x: Worker)
    requires CellInv(c, k) && CellInv(c', k) && Change(c, c', who) && who != Some(w)
    requires WorkerInv(c, w, x)
    ensures WorkerInv(c', w, x)
  {
    OthersLeaveUndisturbed(c, c', who, k, w);
    KeepsWordStable(c, c', who, w, x);
    if x.pc.Announcing? { AnnouncingStable(c, c', who, w, x); } else { PcStable(c, c', w, x); }
  }
}
