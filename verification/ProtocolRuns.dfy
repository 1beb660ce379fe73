/** The invariant holds after every interleaving, and how cells evolve along one. */
module ProtocolRuns {
  import opened Common
  import opened Domain
  import opened Payment
  import opened Orders
  import opened Protocol
  import opened ProtocolInvariant
  import opened ProtocolSteps

  /** Every write is by a worker of that order. */
  ghost predicate Authored(c: Cell, k: Id, workers: seq<Worker>) {
    forall i :: 0 <= i < |c.commits| ==> c.commits[i].author < |workers| && workers[c.commits[i].author].id == k
  }

  ghost predicate CellFits(s: State, k: Id) {
    CellInv(At(s, k), k) && Authored(At(s, k), k, s.workers)
  }

  ghost predicate WorkerFits(s: State, w: nat)
    requires w < |s.workers|
  {
    WorkerInv(At(s, s.workers[w].id), w, s.workers[w])
  }

  /** A statement still to be executed was sent by a worker of that order that has ended, and what it
      would write is as true as when it was sent. */
  ghost predicate LateFits(c: Cell, l: LateWrite, workers: seq<Worker>) {
    && l.author < |workers| && workers[l.author].id == l.next.id && Done(workers[l.author])
    && match l.previous
       case None => Fresh(l.next)
       case Some(p) =>
         && Held(c, p) && Succeeds(p, l.next) && Truth(c.decision, l.next)
         && (l.next.status == Completed ==> c.reserved.Some?)
  }

  ghost predicate LateInv(s: State) {
    forall i :: 0 <= i < |s.late| ==> LateFits(At(s, s.late[i].next.id), s.late[i], s.workers)
  }

  ghost predicate Inv(s: State) {
    && LateInv(s)
    && (forall k :: CellFits(s, k))
    && (forall w :: 0 <= w < |s.workers| ==> WorkerFits(s, w))
  }

  lemma InitialInv()
    ensures Inv(INIT)
  {
    forall k ensures CellFits(INIT, k) { assert At(INIT, k) == EMPTY_CELL; }
  }

  lemma AuthorsStay(c: Cell, k: Id, a: seq<Worker>, b: seq<Worker>)
    requires Authored(c, k, a) && |a| <= |b| && forall w :: 0 <= w < |a| ==> b[w].id == a[w].id
    ensures Authored(c, k, b)
  {
  }

  lemma NewWorkerFits(c: Cell, k: Id, workers: seq<Worker>, x: Worker)
    requires CellInv(c, k) && Authored(c, k, workers)
    requires (x.side == Foreground && x.pc.Inserting? && Fresh(x.pc.order) && x.pc.order.id == x.id)
             || (x.side == Recovery && x.pc.Finding?)
    ensures WorkerInv(c, |workers|, x)
  {
    assert NoCommitBy(c, |workers|);
    assert !ChargedBy(c, |workers|);
  }

  /** Workers keep their order, and those that have ended stay so. */
  predicate WorkersGoOn(a: seq<Worker>, b: seq<Worker>) {
    |a| <= |b| && forall w :: 0 <= w < |a| ==> b[w].id == a[w].id && (Done(a[w]) ==> Done(b[w]))
  }

  lemma LateStays(c: Cell, c': Cell, who: Option<WorkerId>, l: LateWrite, a: seq<Worker>, b: seq<Worker>)
    requires LateFits(c, l, a) && Change(c, c', who) && WorkersGoOn(a, b)
    ensures LateFits(c', l, b)
  {
    if l.previous.Some? { HeldStays(c, c', who, l.previous.value); }
  }

  lemma SameCellLateStays(c: Cell, l: LateWrite, a: seq<Worker>, b: seq<Worker>)
    requires LateFits(c, l, a) && WorkersGoOn(a, b)
    ensures LateFits(c, l, b)
  {
  }

  lemma StartKeepsInv(s: State, x: Worker)
    requires Inv(s)
    requires (x.side == Foreground && x.pc.Inserting? && Fresh(x.pc.order) && x.pc.order.id == x.id)
             || (x.side == Recovery && x.pc.Finding?)
    ensures Inv(Start(s, x))
  {
    var s' := Start(s, x);
    assert LateInv(s') by {
      forall i | 0 <= i < |s'.late| ensures LateFits(At(s', s'.late[i].next.id), s'.late[i], s'.workers) {
        assert At(s', s.late[i].next.id) == At(s, s.late[i].next.id);
        SameCellLateStays(At(s, s.late[i].next.id), s.late[i], s.workers, s'.workers);
      }
    }
    forall k ensures CellFits(s', k) {
      assert CellFits(s, k) && At(s', k) == At(s, k);
      AuthorsStay(At(s, k), k, s.workers, s'.workers);
    }
    forall w | 0 <= w < |s'.workers| ensures WorkerFits(s', w) {
      assert At(s', s'.workers[w].id) == At(s, s'.workers[w].id);
      if w < |s.workers| {
        assert WorkerFits(s, w);
      } else {
        assert CellFits(s, x.id);
        NewWorkerFits(At(s, x.id), x.id, s.workers, x);
      }
    }
  }

  /** Replacing one cell by a changed one keeps the invariant of every worker but the author. */
  lemma CellChangeKeepsOthers(s: State, k: Id, c': Cell, who: Option<WorkerId>, v: nat)
    requires CellFits(s, k) && v < |s.workers| && WorkerFits(s, v) && who != Some(v)
    requires CellInv(c', k) && Change(At(s, k), c', who)
    ensures WorkerInv(At(Put(s, k, c'), s.workers[v].id), v, s.workers[v])
  {
    if s.workers[v].id == k { WorkerStable(At(s, k), c', who, k, v, s.workers[v]); }
  }

  lemma AuthorsOfChange(c: Cell, c': Cell, who: Option<WorkerId>, k: Id, workers: seq<Worker>)
    requires Authored(c, k, workers) && Change(c, c', who)
    requires who.Some? ==> who.value < |workers| && workers[who.value].id == k
    ensures Authored(c', k, workers)
  {
    forall i | 0 <= i < |c'.commits|
      ensures c'.commits[i].author < |workers| && workers[c'.commits[i].author].id == k
    {
      if i < |c.commits| { assert c'.commits[i] == c.commits[i]; } else { assert Some(c'.commits[i].author) == who; }
    }
  }

  lemma ActIsKept(s: State, w: WorkerId, r: Reaction)
    requires Inv(s) && Enabled(s, Act(w, r))
    ensures var x := s.workers[w];
            Kept(At(s, x.id), NextCell(At(s, x.id), w, x, r), x.id, w, x, NextPC(At(s, x.id), x, r))
  {
    var x := s.workers[w];
    FitsTogether(s, w);
    ActionKept(At(s, x.id), x.id, w, x, r);
  }

  /** What a worker's step leaves: its cell, its own program counter and perhaps a statement. */
  function Stepped(s: State, w: WorkerId, c': Cell, pc': PC, left: seq<LateWrite>): State
    requires w < |s.workers|
  {
    var x := s.workers[w];
    State(s.cells[x.id := c'], s.workers[w := x.(pc := pc')], s.late + left)
  }

  lemma LeftStatementFits(c: Cell, c': Cell, w: WorkerId, x: Worker, r: Reaction, workers: seq<Worker>)
    requires Good(c, x.id, w, x) && Possible(c, x, r) && c' == NextCell(c, w, x, r)
    requires w < |workers| && workers[w] == x.(pc := NextPC(c, x, r))
    ensures forall i :: 0 <= i < |LeftLate(w, x, r)| ==>
              LeftLate(w, x, r)[i].next.id == x.id && LateFits(c', LeftLate(w, x, r)[i], workers)
  {
    if x.pc.Writing? && r == Db(ErrorMeanwhile) {
      var i :| 0 <= i < |c.commits| && c.commits[i].row == x.pc.previous;
      SuccessorRaisesRank(x.pc.previous, x.pc.next);
    }
  }

  lemma SteppedLateFits(s: State, w: WorkerId, c': Cell, pc': PC, left: seq<LateWrite>)
    requires w < |s.workers| && LateInv(s) && !Done(s.workers[w])
    requires Change(At(s, s.workers[w].id), c', Some(w))
    requires forall i :: 0 <= i < |left| ==>
               left[i].next.id == s.workers[w].id && LateFits(c', left[i], Stepped(s, w, c', pc', left).workers)
    ensures LateInv(Stepped(s, w, c', pc', left))
  {
    hide LateFits, Change;
    var k, s' := s.workers[w].id, Stepped(s, w, c', pc', left);
    forall i | 0 <= i < |s'.late| ensures LateFits(At(s', s'.late[i].next.id), s'.late[i], s'.workers) {
      if i >= |s.late| {
        assert s'.late[i] == left[i - |s.late|];
      } else if s.late[i].next.id == k {
        LateStays(At(s, k), c', Some(w), s.late[i], s.workers, s'.workers);
      } else {
        SameCellLateStays(At(s, s.late[i].next.id), s.late[i], s.workers, s'.workers);
      }
    }
  }

  lemma SteppedCellsFit(s: State, w: WorkerId, c': Cell, pc': PC, left: seq<LateWrite>, j: Id)
    requires w < |s.workers| && CellFits(s, j)
    requires var x := s.workers[w]; CellFits(s, x.id) && Kept(At(s, x.id), c', x.id, w, x, pc')
    ensures CellFits(Stepped(s, w, c', pc', left), j)
  {
    hide CellInv, WorkerInv, Change, Authored;
    var k, s' := s.workers[w].id, Stepped(s, w, c', pc', left);
    if j == k {
      AuthorsOfChange(At(s, k), c', Some(w), k, s.workers);
      AuthorsStay(c', k, s.workers, s'.workers);
    } else {
      assert At(s', j) == At(s, j);
      AuthorsStay(At(s, j), j, s.workers, s'.workers);
    }
  }

  lemma SteppedWorkersFit(s: State, w: WorkerId, c': Cell, pc': PC, left: seq<LateWrite>, v: nat)
    requires w < |s.workers| && v < |s.workers| && WorkerFits(s, v)
    requires var x := s.workers[w]; CellFits(s, x.id) && Kept(At(s, x.id), c', x.id, w, x, pc')
    ensures WorkerFits(Stepped(s, w, c', pc', left), v)
  {
    hide CellInv, WorkerInv, Change, Authored;
    if v != w {
      CellChangeKeepsOthers(s, s.workers[w].id, c', Some(w), v);
    }
  }

  lemma FitsTogether(s: State, w: nat)
    requires Inv(s) && w < |s.workers|
    ensures LateInv(s) && Good(At(s, s.workers[w].id), s.workers[w].id, w, s.workers[w])
  {
    assert CellFits(s, s.workers[w].id) && WorkerFits(s, w);
  }

  lemma ActKeepsLate(s: State, w: WorkerId, r: Reaction)
    requires LateInv(s) && w < |s.workers| && Possible(At(s, s.workers[w].id), s.workers[w], r)
    requires Good(At(s, s.workers[w].id), s.workers[w].id, w, s.workers[w])
    ensures var x := s.workers[w];
            LateInv(Stepped(s, w, NextCell(At(s, x.id), w, x, r), NextPC(At(s, x.id), x, r), LeftLate(w, x, r)))
  {
    hide Good, LateInv, CellInv, WorkerInv, Change, NextCell, NextPC, LeftLate, LateFits;
    var x := s.workers[w];
    var c', pc', left := NextCell(At(s, x.id), w, x, r), NextPC(At(s, x.id), x, r), LeftLate(w, x, r);
    ActionKept(At(s, x.id), x.id, w, x, r);
    LeftStatementFits(At(s, x.id), c', w, x, r, Stepped(s, w, c', pc', left).workers);
    SteppedLateFits(s, w, c', pc', left);
  }

  lemma ActKeepsInv(s: State, w: WorkerId, r: Reaction)
    requires Inv(s) && Enabled(s, Act(w, r))
    ensures Inv(Apply(s, Act(w, r)))
  {
    var x := s.workers[w];
    var c', pc' := NextCell(At(s, x.id), w, x, r), NextPC(At(s, x.id), x, r);
    var left := LeftLate(w, x, r);
    ActIsKept(s, w, r);
    FitsTogether(s, w);
    ActKeepsLate(s, w, r);
    assert Apply(s, Act(w, r)) == Stepped(s, w, c', pc', left);
    hide CellFits, WorkerFits, LateInv, LateFits, Kept, NextCell, NextPC, Enabled, Apply, LeftLate;
    assert CellFits(s, x.id);
    forall j ensures CellFits(Stepped(s, w, c', pc', left), j) {
      assert CellFits(s, j);
      SteppedCellsFit(s, w, c', pc', left, j);
    }
    forall v | 0 <= v < |s.workers| ensures WorkerFits(Stepped(s, w, c', pc', left), v) {
      assert WorkerFits(s, v);
      SteppedWorkersFit(s, w, c', pc', left, v);
    }
  }

  lemma ChangedCellKeepsLate(s: State, k: Id, c': Cell, who: Option<WorkerId>)
    requires LateInv(s) && Change(At(s, k), c', who)
    ensures LateInv(Put(s, k, c'))
  {
    hide LateFits, Change;
    var s' := Put(s, k, c');
    forall i | 0 <= i < |s'.late| ensures LateFits(At(s', s'.late[i].next.id), s'.late[i], s'.workers) {
      if s.late[i].next.id == k { LateStays(At(s, k), c', who, s.late[i], s.workers, s.workers); }
    }
  }

  lemma OutsideKeepsInv(s: State, k: Id, c': Cell)
    requires Inv(s) && CellInv(c', k) && Change(At(s, k), c', None)
    ensures Inv(Put(s, k, c'))
  {
    hide CellInv, WorkerInv, Change, Authored;
    var s' := Put(s, k, c');
    assert CellFits(s, k);
    ChangedCellKeepsLate(s, k, c', None);
    AuthorsOfChange(At(s, k), c', None, k, s.workers);
    forall j ensures CellFits(s', j) {
      if j != k { assert CellFits(s, j) && At(s', j) == At(s, j); }
    }
    forall v | 0 <= v < |s'.workers| ensures WorkerFits(s', v) {
      assert WorkerFits(s, v);
      CellChangeKeepsOthers(s, k, c', None, v);
    }
  }

  /** What the provider, the network and the inventory may do to a cell by themselves. */
  ghost predicate OutsideMove(c: Cell, c': Cell) {
    || (c.inflight && c.decision == Undecided && c' == c.(decision := c'.decision))
    || (c.inflight && c' == c.(inflight := false))
    || (c.reserves != [] && c' == c.(reserved := Reserved(c, c.reserves[0].items, true)))
  }

  lemma OutsideMoveKeepsCell(c: Cell, c': Cell, k: Id)
    requires CellInv(c, k) && OutsideMove(c, c')
    ensures CellInv(c', k) && Change(c, c', None)
  {
    assert c'.commits == c.commits && c'.charges == c.charges && c'.emitted == c.emitted && c'.reserves == c.reserves;
    assert HistoryFits(c', k) by {
      forall i | 0 <= i < |c.commits| ensures Truth(c'.decision, c'.commits[i].row) {
        assert Truth(c.decision, c.commits[i].row);
      }
    }
    assert Change(c, c', None);
    assert EventsFit(c') by {
      forall e | 0 <= e < |c'.emitted| ensures Witnessed(c', c'.emitted[e], None) {
        WitnessStays(c, c', None, c.emitted[e]);
      }
    }
  }

  lemma CrashKeepsInv(s: State, w: nat)
    requires Inv(s) && w < |s.workers|
    ensures Inv(Apply(s, Crash(w)))
  {
    var s' := Apply(s, Crash(w));
    assert LateInv(s') by {
      forall i | 0 <= i < |s'.late| ensures LateFits(At(s', s'.late[i].next.id), s'.late[i], s'.workers) {
        assert At(s', s.late[i].next.id) == At(s, s.late[i].next.id);
        SameCellLateStays(At(s, s.late[i].next.id), s.late[i], s.workers, s'.workers);
      }
    }
    forall k ensures CellFits(s', k) {
      assert CellFits(s, k) && At(s', k) == At(s, k);
      AuthorsStay(At(s, k), k, s.workers, s'.workers);
    }
    forall v | 0 <= v < |s'.workers| ensures WorkerFits(s', v) {
      assert WorkerFits(s, v) && At(s', s.workers[v].id) == At(s, s.workers[v].id);
      CrashKeepsWorker(At(s, s.workers[v].id), v, s.workers[v]);
    }
  }

  lemma CrashKeepsWorker(c: Cell, w: WorkerId, x: Worker)
    requires WorkerInv(c, w, x)
    ensures WorkerInv(c, w, x.(crashed := true))
  {
    assert x.(crashed := true).pc == x.pc;
  }

  /** A late statement commits what was true when it was sent and still is, or nothing. */
  lemma LateCellFits(c: Cell, k: Id, l: LateWrite, workers: seq<Worker>)
    requires CellInv(c, k) && LateFits(c, l, workers) && l.next.id == k
    ensures LateCell(c, l) == c || LateCell(c, l) == Committed(c, l.next, l.author, false)
    ensures CellInv(LateCell(c, l), k) && Change(c, LateCell(c, l), Some(l.author))
  {
    hide CellInv;
    match l.previous {
      case None => if c.row.None? { CommitKeepsCell(c, k, l.next, l.author, false); }
      case Some(p) =>
        if RowMatches(c, p.status) {
          MatchingWriteCommitsNext(c, k, p, l.next, l.author, ErrorAfter);
          CommitKeepsCell(c, k, l.next, l.author, false);
        }
    }
  }

  /** Its author has ended, and whatever it told its caller stays right. */
  lemma EndedAuthorFits(c: Cell, c': Cell, o: OrderData, w: WorkerId, x: Worker)
    requires WorkerInv(c, w, x) && Done(x) && c' == Committed(c, o, w, false) && Change(c, c', Some(w))
    ensures WorkerInv(c', w, x)
  {
    SilentCommitKeepsWord(c, w, x, o, x.pc);
    assert x.(pc := x.pc) == x;
    if x.pc.Returned? && x.pc.result.Some? { HeldStays(c, c', Some(w), x.pc.result.value); }
  }

  lemma WriteLateKeepsInv(s: State, i: nat)
    requires Inv(s) && i < |s.late|
    ensures Inv(Apply(s, WriteLate(i)))
    ensures var l := s.late[i]; Change(At(s, l.next.id), LateCell(At(s, l.next.id), l), Some(l.author))
  {
    var l := s.late[i];
    var k := l.next.id;
    var c' := LateCell(At(s, k), l);
    var s' := Apply(s, WriteLate(i));
    assert CellFits(s, k) && WorkerFits(s, l.author);
    LateCellFits(At(s, k), k, l, s.workers);
    if c' != At(s, k) { EndedAuthorFits(At(s, k), c', l.next, l.author, s.workers[l.author]); }
    hide CellInv, WorkerInv, Change, LateFits, LateCell;
    ChangedCellKeepsLate(s, k, c', Some(l.author));
    AuthoredChangeKeepsInv(s, k, c', l.author);
    OneStatementLess(Put(s, k, c'), i);
  }

  /** A change by one worker that leaves this worker's own invariant intact. */
  lemma AuthoredChangeKeepsInv(s: State, k: Id, c': Cell, w: WorkerId)
    requires Inv(s) && w < |s.workers| && s.workers[w].id == k && CellInv(c', k) && Change(At(s, k), c', Some(w))
    requires WorkerInv(c', w, s.workers[w]) && LateInv(Put(s, k, c'))
    ensures Inv(Put(s, k, c'))
  {
    hide CellInv, WorkerInv, Change, Authored, LateInv;
    var s' := Put(s, k, c');
    assert CellFits(s, k);
    AuthorsOfChange(At(s, k), c', Some(w), k, s.workers);
    forall j ensures CellFits(s', j) {
      if j != k { assert CellFits(s, j) && At(s', j) == At(s, j); }
    }
    forall v | 0 <= v < |s'.workers| ensures WorkerFits(s', v) {
      assert WorkerFits(s, v);
      if v != w { CellChangeKeepsOthers(s, k, c', Some(w), v); }
    }
  }

  lemma OneStatementLess(s: State, i: nat)
    requires Inv(s) && i < |s.late|
    ensures Inv(s.(late := s.late[..i] + s.late[i + 1..]))
  {
    hide CellInv, WorkerInv, Authored, LateFits;
    var s' := s.(late := s.late[..i] + s.late[i + 1..]);
    forall j | 0 <= j < |s'.late| ensures LateFits(At(s', s'.late[j].next.id), s'.late[j], s'.workers) {
      assert s'.late[j] == s.late[if j < i then j else j + 1];
    }
    forall j ensures CellFits(s', j) { assert CellFits(s, j); }
    forall v | 0 <= v < |s'.workers| ensures WorkerFits(s', v) { assert WorkerFits(s, v); }
  }

  /** No move breaks the invariant. */
  lemma MoveKeepsInv(s: State, m: Move)
    requires Inv(s) && Enabled(s, m)
    ensures Inv(Apply(s, m))
  {
    match m
    case Submit(o) => StartKeepsInv(s, Worker(o.id, Foreground, Inserting(o), false));
    case Recover(k) => StartKeepsInv(s, Worker(k, Recovery, Finding, false));
    case Act(w, r) => ActKeepsInv(s, w, r);
    case Crash(w) => CrashKeepsInv(s, w);
    case Decide(k, d) => OutsideMoveKeepsInv(s, k, At(s, k).(decision := d));
    case LoseRequest(k) => OutsideMoveKeepsInv(s, k, At(s, k).(inflight := false));
    case ReserveLate(k) =>
      OutsideMoveKeepsInv(s, k, At(s, k).(reserved := Reserved(At(s, k), At(s, k).reserves[0].items, true)));
    case WriteLate(i) => WriteLateKeepsInv(s, i);
  }

  lemma OutsideMoveKeepsInv(s: State, k: Id, c': Cell)
    requires Inv(s) && OutsideMove(At(s, k), c')
    ensures Inv(Put(s, k, c'))
  {
    assert CellFits(s, k);
    OutsideMoveKeepsCell(At(s, k), c', k);
    OutsideKeepsInv(s, k, c');
  }

  lemma {:induction false} RunKeepsInv(s: State, run: seq<Move>)
    requires Inv(s) && Legal(s, run)
    ensures Inv(Exec(s, run))
    decreases |run|
  {
    if run != [] {
      MoveKeepsInv(s, run[0]);
      RunKeepsInv(Apply(s, run[0]), run[1..]);
    }
  }

  /** Every reachable state satisfies the invariant. */
  lemma ReachableInv(run: seq<Move>)
    requires Legal(INIT, run)
    ensures Inv(Exec(INIT, run))
  {
    InitialInv();
    RunKeepsInv(INIT, run);
  }

  // ---------- evolution ----------

  /** What never changes any more once it is there. */
  ghost predicate Evolves(c: Cell, c': Cell) {
    && |c.commits| <= |c'.commits| && (forall i :: 0 <= i < |c.commits| ==> c'.commits[i] == c.commits[i])
    && (c.decision != Undecided ==> c'.decision == c.decision)
    && |c.charges| <= |c'.charges| && (forall i :: 0 <= i < |c.charges| ==> c'.charges[i] == c.charges[i])
    && (c.reserved.Some? ==> c'.reserved == c.reserved)
    && |c.emitted| <= |c'.emitted| && (forall i :: 0 <= i < |c.emitted| ==> c'.emitted[i] == c.emitted[i])
  }

  lemma MoveEvolves(s: State, m: Move, k: Id)
    requires Inv(s) && Enabled(s, m)
    ensures Evolves(At(s, k), At(Apply(s, m), k))
  {
    match m
    case Act(w, r) =>
      ActIsKept(s, w, r);
      if k != s.workers[w].id { assert At(Apply(s, m), k) == At(s, k); }
    case WriteLate(i) => WriteLateKeepsInv(s, i);
    case _ =>
  }

  lemma MoveLeavesDone(s: State, m: Move, w: nat)
    requires Enabled(s, m) && w < |s.workers| && (s.workers[w].pc.Returned? || s.workers[w].pc.Finished?)
    ensures w < |Apply(s, m).workers| && Apply(s, m).workers[w].pc == s.workers[w].pc
    ensures Apply(s, m).workers[w].id == s.workers[w].id && Apply(s, m).workers[w].side == s.workers[w].side
  {
  }

  lemma {:induction false} RunEvolves(s: State, run: seq<Move>, k: Id)
    requires Inv(s) && Legal(s, run)
    ensures Evolves(At(s, k), At(Exec(s, run), k))
    decreases |run|
  {
    if run != [] {
      MoveEvolves(s, run[0], k);
      MoveKeepsInv(s, run[0]);
      RunEvolves(Apply(s, run[0]), run[1..], k);
    }
  }

  /** A worker that is done stays done with the same result. */
  lemma {:induction false} DoneStaysDone(s: State, run: seq<Move>, w: nat)
    requires Legal(s, run) && w < |s.workers|
    requires s.workers[w].pc.Returned? || s.workers[w].pc.Finished?
    ensures w < |Exec(s, run).workers| && Exec(s, run).workers[w].pc == s.workers[w].pc
    ensures Exec(s, run).workers[w].id == s.workers[w].id && Exec(s, run).workers[w].side == s.workers[w].side
    decreases |run|
  {
    if run != [] {
      MoveLeavesDone(s, run[0], w);
      DoneStaysDone(Apply(s, run[0]), run[1..], w);
    }
  }
}
