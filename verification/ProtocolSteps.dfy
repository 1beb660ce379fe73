/** Every move keeps the invariant, action by action. */
module ProtocolSteps {
  import opened Common
  import opened Domain
  import opened Payment
  import opened Orders
  import opened Protocol
  import opened ProtocolInvariant

  /** The cell of an order ID and the worker acting on it fit together. */
  ghost predicate Good(c: Cell, k: Id, w: WorkerId, x: Worker) {
    CellInv(c, k) && WorkerInv(c, w, x) && x.id == k
  }

  /** An action of w leads from (c, x) to (c', pc) and keeps everything. */
  ghost predicate Kept(c: Cell, c': Cell, k: Id, w: WorkerId, x: Worker, pc: PC) {
    CellInv(c', k) && WorkerInv(c', w, x.(pc := pc)) && Change(c, c', Some(w))
  }

  lemma WitnessStays(c: Cell, c': Cell, who: Option<WorkerId>, name: string)
    requires Change(c, c', who) && Witnessed(c, name, None)
    ensures Witnessed(c', name, None)
  {
    var i :| 0 <= i < |c.commits| && c.commits[i].acked && EventName(c.commits[i].row.status) == name;
    assert c'.commits[i] == c.commits[i];
  }

  function Committed(c: Cell, o: OrderData, w: WorkerId, acked: bool): Cell {
    c.(row := Some(o), commits := c.commits + [Commit(o, w, acked)])
  }

  lemma CommitKeepsHistory(c: Cell, k: Id, o: OrderData, w: WorkerId, acked: bool)
    requires CellInv(c, k)
    requires if c.row.None? then Fresh(o) && o.id == k else Succeeds(c.row.value, o)
    ensures LegalHistory(Committed(c, o, w, acked).commits)
  {
    var h := Committed(c, o, w, acked).commits;
    if c.row.Some? {
      SuccessorRaisesRank(c.row.value, o);
      assert h[|h| - 2].row == c.row.value;
      forall i, j | 0 <= i < j < |h| ensures Rank(h[i].row.status) < Rank(h[j].row.status) {
        if j == |h| - 1 && i < |h| - 2 { assert Rank(h[i].row.status) < Rank(h[|h| - 2].row.status); }
      }
    }
  }

  lemma CommitKeepsCell(c: Cell, k: Id, o: OrderData, w: WorkerId, acked: bool)
    requires CellInv(c, k) && Truth(c.decision, o) && (o.status == Completed ==> c.reserved.Some?)
    requires if c.row.None? then Fresh(o) && o.id == k else Succeeds(c.row.value, o)
    ensures CellInv(Committed(c, o, w, acked), k)
    ensures Change(c, Committed(c, o, w, acked), Some(w))
  {
    var c' := Committed(c, o, w, acked);
    CommitKeepsHistory(c, k, o, w, acked);
    if c.row.Some? { SuccessorRaisesRank(c.row.value, o); }
    assert HistoryFits(c', k);
    assert Change(c, c', Some(w));
    forall e | 0 <= e < |c'.emitted| ensures Witnessed(c', c'.emitted[e], None) {
      WitnessStays(c, c', Some(w), c.emitted[e]);
    }
  }

  /** A successful conditional write found the very row its worker had read. */
  lemma MatchingRowIsSnapshot(c: Cell, k: Id, p: OrderData)
    requires CellInv(c, k) && Held(c, p) && RowMatches(c, p.status)
    ensures c.row == Some(p)
  {
    var i :| 0 <= i < |c.commits| && c.commits[i].row == p;
    var last := |c.commits| - 1;
    assert Rank(c.commits[i].row.status) <= Rank(c.commits[last].row.status);
  }

  lemma HeldRankAtMostRow(c: Cell, k: Id, p: OrderData)
    requires CellInv(c, k) && Held(c, p)
    ensures c.row.Some? && Rank(p.status) <= Rank(c.row.value.status)
  {
    var i :| 0 <= i < |c.commits| && c.commits[i].row == p;
    var last := |c.commits| - 1;
    if i < last { assert Rank(c.commits[i].row.status) < Rank(c.commits[last].row.status); }
  }

  /** A row not in the expected status has moved strictly past it. */
  lemma ConflictMeansProgress(c: Cell, k: Id, p: OrderData)
    requires CellInv(c, k) && Held(c, p) && !RowMatches(c, p.status)
    ensures c.row.Some? && Rank(p.status) < Rank(c.row.value.status)
  {
    var i :| 0 <= i < |c.commits| && c.commits[i].row == p;
    var last := |c.commits| - 1;
    assert c.row.value == c.commits[last].row;
    if i < last { assert Rank(c.commits[i].row.status) < Rank(c.commits[last].row.status); }
  }

  lemma RowIsHeld(c: Cell, k: Id)
    requires CellInv(c, k) && c.row.Some?
    ensures Held(c, c.row.value)
  {
    assert c.commits[|c.commits| - 1].row == c.row.value;
  }

  lemma RowBoundsOwnCommits(c: Cell, k: Id, w: WorkerId)
    requires CellInv(c, k) && c.row.Some?
    ensures NothingLater(c, w, c.row.value)
  {
    var last := |c.commits| - 1;
    forall i | 0 <= i < |c.commits| ensures Rank(c.commits[i].row.status) <= Rank(c.row.value.status) {
      if i < last { assert Rank(c.commits[i].row.status) < Rank(c.commits[last].row.status); }
    }
  }

  /** The worker's own new write is to be announced next. */
  lemma NewCommitIsAnnounced(c: Cell, k: Id, w: WorkerId, x: Worker, o: OrderData, g: Goal)
    requires CellInv(c, k) && Change(c, Committed(c, o, w, true), Some(w)) && CellInv(Committed(c, o, w, true), k)
    requires KeepsWord(c, w, x) && !x.pc.Announcing?
    ensures var c' := Committed(c, o, w, true);
            && (exists i :: 0 <= i < |c'.commits| && c'.commits[i] == Commit(o, w, true))
            && EventName(o.status) !in c'.emitted && NothingLater(c', w, o)
            && KeepsWord(c', w, x.(pc := Announcing(o, g)))
  {
    var c' := Committed(c, o, w, true);
    var last := |c.commits|;
    assert c'.commits[last] == Commit(o, w, true);
    forall e | 0 <= e < |c'.emitted| ensures c'.emitted[e] != EventName(o.status) {
      assert Witnessed(c, c.emitted[e], None);
      var j :| 0 <= j < |c.commits| && c.commits[j].acked && EventName(c.commits[j].row.status) == c.emitted[e];
      assert c'.commits[j] == c.commits[j];
      CommitNamesDiffer(c'.commits, j, last);
    }
    forall i | 0 <= i < |c'.commits| && c'.commits[i].author == w
      ensures Rank(c'.commits[i].row.status) <= Rank(o.status)
    {
      if i < last { assert Rank(c'.commits[i].row.status) < Rank(c'.commits[last].row.status); }
    }
    forall i | 0 <= i < |c'.commits| && c'.commits[i].author == w && c'.commits[i].acked
      ensures EventName(c'.commits[i].row.status) in c'.emitted || o == c'.commits[i].row
    {
      if i < last { assert c'.commits[i] == c.commits[i]; }
    }
  }

  /** A write the worker was not told about leaves its word kept. */
  lemma SilentCommitKeepsWord(c: Cell, w: WorkerId, x: Worker, o: OrderData, pc: PC)
    requires KeepsWord(c, w, x) && !x.pc.Announcing?
    ensures KeepsWord(Committed(c, o, w, false), w, x.(pc := pc))
  {
    var c' := Committed(c, o, w, false);
    forall i | 0 <= i < |c'.commits| && c'.commits[i].author == w && c'.commits[i].acked
      ensures EventName(c'.commits[i].row.status) in c'.emitted
    {
      assert i < |c.commits| && c'.commits[i] == c.commits[i];
    }
  }

  lemma NoRowNoCharge(c: Cell, k: Id)
    requires CellInv(c, k) && c.row.None?
    ensures c.commits == [] && c.charges == []
  {
  }

  lemma {:induction false} InsertingStep(c: Cell, k: Id, w: WorkerId, x: Worker, r: Reaction)
    requires Good(c, k, w, x) && x.pc.Inserting? && Possible(c, x, r)
    ensures Kept(c, NextCell(c, w, x, r), k, w, x, NextPC(c, x, r))
  {
    hide CellInv;
    var o := x.pc.order;
    if c.row.None? && TakesEffect(r.reply) {
      NoRowNoCharge(c, k);
      CommitKeepsCell(c, k, o, w, r.reply == Executed);
      if r.reply == Executed {
        NewCommitIsAnnounced(c, k, w, x, o, Created);
      } else {
        SilentCommitKeepsWord(c, w, x, o, NextPC(c, x, r));
      }
    }
  }

  lemma CommitKeepsGoal(c: Cell, w: WorkerId, side: Side, o: OrderData, g: Goal, n: OrderData, acked: bool)
    requires g != Created && GoalFits(c, w, side, o, g)
    ensures GoalFits(Committed(c, n, w, acked), w, side, o, g)
  {
    var c' := Committed(c, n, w, acked);
    assert c.commits != [] ==> c'.commits[0] == c.commits[0];
  }

  lemma MatchingWriteCommitsNext(c: Cell, k: Id, p: OrderData, n: OrderData, w: WorkerId, reply: DbReply)
    requires CellInv(c, k) && Held(c, p) && Succeeds(p, n) && RowMatches(c, p.status) && TakesEffect(reply)
    ensures UpdateRow(c, n, p.status, w, reply) == Committed(c, n, w, reply == Executed)
    ensures c.row == Some(p)
  {
    MatchingRowIsSnapshot(c, k, p);
    SuccessorKeepsColumns(p, n);
  }

  lemma {:induction false} WritingSucceedsStep(c: Cell, k: Id, w: WorkerId, x: Worker, r: Reaction)
    requires Good(c, k, w, x) && x.pc.Writing? && Possible(c, x, r)
    requires RowMatches(c, x.pc.previous.status) && r.reply == Executed
    ensures Kept(c, NextCell(c, w, x, r), k, w, x, NextPC(c, x, r))
  {
    var p, n, g := x.pc.previous, x.pc.next, x.pc.goal;
    MatchingWriteCommitsNext(c, k, p, n, w, r.reply);
    CommitKeepsCell(c, k, n, w, true);
    NewCommitIsAnnounced(c, k, w, x, n, g);
    CommitKeepsGoal(c, w, x.side, n, g, n, true);
    AnnouncedCommitFits(c, Committed(c, n, w, true), w, x, n, g);
  }

  lemma AnnouncedCommitFits(c: Cell, c': Cell, w: WorkerId, x: Worker, n: OrderData, g: Goal)
    requires exists i :: 0 <= i < |c'.commits| && c'.commits[i] == Commit(n, w, true)
    requires EventName(n.status) !in c'.emitted && NothingLater(c', w, n) && GoalFits(c', w, x.side, n, g)
    requires KeepsWord(c', w, x.(pc := Announcing(n, g))) && c'.charges == c.charges
    requires x.side == Recovery ==> !ChargedBy(c, w)
    ensures WorkerInv(c', w, x.(pc := Announcing(n, g)))
  {
  }

  /** Writing only the two mutable columns writes the whole next state. */
  lemma SuccessorKeepsColumns(p: OrderData, n: OrderData)
    requires Succeeds(p, n)
    ensures p.(status := n.status, paymentReference := n.paymentReference) == n
  {
  }

  lemma {:induction false} WritingSilentlyStep(c: Cell, k: Id, w: WorkerId, x: Worker, r: Reaction)
    requires Good(c, k, w, x) && x.pc.Writing? && Possible(c, x, r)
    requires RowMatches(c, x.pc.previous.status) && r.reply == ErrorAfter
    ensures Kept(c, NextCell(c, w, x, r), k, w, x, NextPC(c, x, r))
  {
    var p, n, g := x.pc.previous, x.pc.next, x.pc.goal;
    MatchingWriteCommitsNext(c, k, p, n, w, r.reply);
    CommitKeepsCell(c, k, n, w, false);
    HeldStays(c, Committed(c, n, w, false), Some(w), p);
    SilentCommitKeepsWord(c, w, x, n, NextPC(c, x, r));
    WriteErrorFits(c, Committed(c, n, w, false), w, x);
  }

  /** A write that reported an error tells the caller no more than is known. */
  lemma WriteErrorFits(c: Cell, c': Cell, w: WorkerId, x: Worker)
    requires x.pc.Writing? && GoalFits(c, w, x.side, x.pc.next, x.pc.goal) && x.pc.goal != Created
    requires Succeeds(x.pc.previous, x.pc.next) && Truth(c.decision, x.pc.next) && Held(c', x.pc.previous)
    requires c'.charges == c.charges && c'.decision == c.decision
    ensures PcInv(c', w, x.(pc := AfterWriteError(x.side, x.pc.previous, x.pc.goal)))
  {
    SuccessorRaisesRank(x.pc.previous, x.pc.next);
  }

  lemma {:induction false} WritingWithoutEffectStep(c: Cell, k: Id, w: WorkerId, x: Worker, r: Reaction)
    requires Good(c, k, w, x) && x.pc.Writing? && Possible(c, x, r)
    requires !TakesEffect(r.reply) || !RowMatches(c, x.pc.previous.status)
    ensures Kept(c, NextCell(c, w, x, r), k, w, x, NextPC(c, x, r))
  {
    hide CellInv;
    if r.reply != Executed { WriteErrorFits(c, c, w, x); } else { ConflictMeansProgress(c, k, x.pc.previous); }
  }

  lemma AnnounceKeepsCell(c: Cell, k: Id, w: WorkerId, o: OrderData, i: nat)
    requires CellInv(c, k) && EventName(o.status) !in c.emitted
    requires i < |c.commits| && c.commits[i] == Commit(o, w, true)
    ensures var c' := c.(emitted := c.emitted + [EventName(o.status)]);
            CellInv(c', k) && Change(c, c', Some(w))
  {
    var c' := c.(emitted := c.emitted + [EventName(o.status)]);
    var last := |c.emitted|;
    assert c'.commits[i] == Commit(o, w, true);
    assert Witnessed(c', c'.emitted[last], Some(w));
    assert Change(c, c', Some(w));
    assert EventsFit(c') by {
      forall e | 0 <= e < |c'.emitted| ensures Witnessed(c', c'.emitted[e], None) {
        if e < last { WitnessStays(c, c', Some(w), c.emitted[e]); }
      }
    }
  }

  lemma {:induction false} AnnouncingStep(c: Cell, k: Id, w: WorkerId, x: Worker, r: Reaction)
    requires Good(c, k, w, x) && x.pc.Announcing? && Possible(c, x, r)
    ensures Kept(c, NextCell(c, w, x, r), k, w, x, NextPC(c, x, r))
  {
    hide CellInv;
    var o := x.pc.order;
    var i :| 0 <= i < |c.commits| && c.commits[i] == Commit(o, w, true);
    AnnounceKeepsCell(c, k, w, o, i);
    AnnouncingThenNext(c, NextCell(c, w, x, r), k, w, x, i);
  }

  lemma AnnouncingThenNext(c: Cell, c': Cell, k: Id, w: WorkerId, x: Worker, i: nat)
    requires Good(c, k, w, x) && x.pc.Announcing? && CellInv(c', k)
    requires c' == c.(emitted := c.emitted + [EventName(x.pc.order.status)])
    requires i < |c.commits| && c.commits[i] == Commit(x.pc.order, w, true)
    ensures WorkerInv(c', w, x.(pc := AfterAnnounce(x.side, x.pc.order, x.pc.goal)))
  {
    var o := x.pc.order;
    var pc := AfterAnnounce(x.side, o, x.pc.goal);
    AnnouncementKeepsWord(c, c', w, x, pc);
    assert c'.commits[i].row == o;
    if x.pc.goal == Created {
      assert Rank(c'.commits[0].row.status) <= Rank(c'.commits[i].row.status);
    }
    AnnouncedGoalLeadsOn(c', w, x);
  }

  lemma AnnouncementKeepsWord(c: Cell, c': Cell, w: WorkerId, x: Worker, pc: PC)
    requires KeepsWord(c, w, x) && x.pc.Announcing?
    requires c' == c.(emitted := c.emitted + [EventName(x.pc.order.status)])
    ensures KeepsWord(c', w, x.(pc := pc))
  {
    assert c'.emitted[|c.emitted|] == EventName(x.pc.order.status);
    forall j | 0 <= j < |c'.commits| && c'.commits[j].author == w && c'.commits[j].acked
      ensures EventName(c'.commits[j].row.status) in c'.emitted
    {
      var name := EventName(c.commits[j].row.status);
      if name in c.emitted {
        var e :| 0 <= e < |c.emitted| && c.emitted[e] == name;
        assert c'.emitted[e] == name;
      }
    }
  }

  /** What the worker does after announcing fits what it has just committed. */
  lemma AnnouncedGoalLeadsOn(c: Cell, w: WorkerId, x: Worker)
    requires x.pc.Announcing? && GoalFits(c, w, x.side, x.pc.order, x.pc.goal)
    requires Held(c, x.pc.order) && NothingLater(c, w, x.pc.order) && Truth(c.decision, x.pc.order)
    requires x.pc.goal == Created ==> c.commits != [] && x.pc.order == c.commits[0].row
    ensures PcInv(c, w, x.(pc := AfterAnnounce(x.side, x.pc.order, x.pc.goal)))
  {
  }

  lemma ChargeKeepsCell(c: Cell, k: Id, w: WorkerId, o: OrderData)
    requires CellInv(c, k) && Opened(c, w) && o == c.commits[0].row && c.charges == []
    ensures var c' := c.(inflight := true, charges := c.charges + [ChargeCall(w, o.id, o.customerId, TotalCents(o.items))]);
            CellInv(c', k) && Change(c, c', Some(w))
  {
    var c' := c.(inflight := true, charges := c.charges + [ChargeCall(w, o.id, o.customerId, TotalCents(o.items))]);
    assert Change(c, c', Some(w));
    forall e | 0 <= e < |c'.emitted| ensures Witnessed(c', c'.emitted[e], None) {
      WitnessStays(c, c', Some(w), c.emitted[e]);
    }
  }

  lemma {:induction false} SendingChargeStep(c: Cell, k: Id, w: WorkerId, x: Worker, r: Reaction)
    requires Good(c, k, w, x) && x.pc.SendingCharge? && Possible(c, x, r)
    ensures Kept(c, NextCell(c, w, x, r), k, w, x, NextPC(c, x, r))
  {
    hide CellInv;
    ChargeKeepsCell(c, k, w, x.pc.order);
  }

  lemma FirstOrderIsFresh(c: Cell, k: Id)
    requires CellInv(c, k) && c.commits != []
    ensures Held(c, c.commits[0].row) && Fresh(c.commits[0].row)
  {
    assert c.commits[0].row == c.commits[0].row;
  }

  lemma {:induction false} AwaitingChargeStep(c: Cell, k: Id, w: WorkerId, x: Worker, r: Reaction)
    requires Good(c, k, w, x) && x.pc.AwaitingCharge? && Possible(c, x, r)
    ensures Kept(c, NextCell(c, w, x, r), k, w, x, NextPC(c, x, r))
  {
    hide CellInv;
    FirstOrderIsFresh(c, k);
  }

  lemma ReserveKeepsCell(c: Cell, k: Id, w: WorkerId, o: OrderData, effect: bool)
    requires CellInv(c, k) && Held(c, o) && PaidUp(o.status)
    ensures var c' := c.(reserved := Reserved(c, o.items, effect),
                         reserves := c.reserves + [ReserveCall(w, o.id, o.items, StatusOf(c))]);
            CellInv(c', k) && Change(c, c', Some(w))
  {
    var c' := c.(reserved := Reserved(c, o.items, effect),
                 reserves := c.reserves + [ReserveCall(w, o.id, o.items, StatusOf(c))]);
    PaidRowStaysPaid(c, k, o);
    forall e | 0 <= e < |c'.emitted| ensures Witnessed(c', c'.emitted[e], None) {
      WitnessStays(c, c', Some(w), c.emitted[e]);
    }
  }

  lemma {:induction false} ReservingStep(c: Cell, k: Id, w: WorkerId, x: Worker, r: Reaction)
    requires Good(c, k, w, x) && x.pc.Reserving? && Possible(c, x, r)
    ensures Kept(c, NextCell(c, w, x, r), k, w, x, NextPC(c, x, r))
  {
    ReserveKeepsCell(c, k, w, x.pc.order, r.effect);
    PaidRowStaysPaid(c, k, x.pc.order);
    ReserveLeadsOn(c, NextCell(c, w, x, r), w, x, r);
  }

  lemma ReserveLeadsOn(c: Cell, c': Cell, w: WorkerId, x: Worker, r: Reaction)
    requires WorkerInv(c, w, x) && x.pc.Reserving? && Possible(c, x, r)
    requires c'.commits == c.commits && c'.charges == c.charges && c'.emitted == c.emitted && c'.decision == c.decision
    requires r.effect ==> c'.reserved.Some?
    requires Truth(c.decision, x.pc.order)
    ensures WorkerInv(c', w, x.(pc := AfterReserve(x.side, x.pc.order, r.ok)))
  {
    var o := x.pc.order;
    assert Held(c', o);
    assert NothingLater(c', w, o);
    MarkingSucceeds(o, Finish);
    if o.status == Paid { MarkingSucceeds(o, Defer); }
  }

  /** Once a row was paid it never looks unpaid or failed again. */
  lemma PaidRowStaysPaid(c: Cell, k: Id, o: OrderData)
    requires CellInv(c, k) && Held(c, o) && PaidUp(o.status)
    ensures c.row.Some? && PaidUp(c.row.value.status) && c.row.value.paymentReference == o.paymentReference
    ensures o.id == k && o.items == c.commits[0].row.items && c.decision == Approved(o.paymentReference)
  {
    HeldRankAtMostRow(c, k, o);
    var i :| 0 <= i < |c.commits| && c.commits[i].row == o;
    assert Truth(c.decision, c.commits[i].row);
    assert Truth(c.decision, c.commits[|c.commits| - 1].row);
  }

  lemma {:induction false} FindingStep(c: Cell, k: Id, w: WorkerId, x: Worker, r: Reaction)
    requires Good(c, k, w, x) && x.pc.Finding? && Possible(c, x, r)
    ensures Kept(c, NextCell(c, w, x, r), k, w, x, NextPC(c, x, r))
  {
    hide CellInv;
    if c.row.Some? {
      RowIsHeld(c, k);
      RowBoundsOwnCommits(c, k, w);
    }
  }

  lemma {:induction false} ReloadingStep(c: Cell, k: Id, w: WorkerId, x: Worker, r: Reaction)
    requires Good(c, k, w, x) && x.pc.Reloading? && Possible(c, x, r)
    ensures Kept(c, NextCell(c, w, x, r), k, w, x, NextPC(c, x, r))
  {
    RowIsHeld(c, k);
    ReloadFits(c, w, x, r);
  }

  lemma ReloadFits(c: Cell, w: WorkerId, x: Worker, r: Reaction)
    requires WorkerInv(c, w, x) && x.pc.Reloading? && Possible(c, x, r) && Held(c, c.row.value)
    ensures WorkerInv(c, w, x.(pc := NextPC(c, x, r)))
  {
  }

  lemma HeldIsTrue(c: Cell, k: Id, o: OrderData)
    requires CellInv(c, k) && Held(c, o)
    ensures Truth(c.decision, o)
  {
  }

  lemma {:induction false} LookingUpStep(c: Cell, k: Id, w: WorkerId, x: Worker, r: Reaction)
    requires Good(c, k, w, x) && x.pc.LookingUp? && Possible(c, x, r)
    ensures Kept(c, NextCell(c, w, x, r), k, w, x, NextPC(c, x, r))
  {
    hide CellInv;
    HeldIsTrue(c, k, x.pc.order);
    MarkingSucceeds(x.pc.order, Fail);
  }

  /** Every action of a worker keeps its cell and its own invariant, and changes no more of the
      cell than the others can stand. */
  lemma ActionKept(c: Cell, k: Id, w: WorkerId, x: Worker, r: Reaction)
    requires Good(c, k, w, x) && Possible(c, x, r)
    ensures Kept(c, NextCell(c, w, x, r), k, w, x, NextPC(c, x, r))
  {
    match x.pc
    case Inserting(_) => InsertingStep(c, k, w, x, r);
    case Announcing(_, _) => AnnouncingStep(c, k, w, x, r);
    case SendingCharge(_) => SendingChargeStep(c, k, w, x, r);
    case AwaitingCharge(_) => AwaitingChargeStep(c, k, w, x, r);
    case Writing(p, _, _) =>
      if !TakesEffect(r.reply) || !RowMatches(c, p.status) { WritingWithoutEffectStep(c, k, w, x, r); }
      else if r.reply == Executed { WritingSucceedsStep(c, k, w, x, r); }
      else { WritingSilentlyStep(c, k, w, x, r); }
    case Reloading(_, _) => ReloadingStep(c, k, w, x, r);
    case Reserving(_) => ReservingStep(c, k, w, x, r);
    case Finding => FindingStep(c, k, w, x, r);
    case LookingUp(_) => LookingUpStep(c, k, w, x, r);
  }
}
