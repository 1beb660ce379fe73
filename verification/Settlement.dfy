/** Workers that nobody disturbs: what one reconciliation and one request achieve from any reachable
    state, whatever the provider decides and whether or not lookups and the inventory work. */
module Settlement {
  import opened Common
  import opened Domain
  import opened Payment
  import opened Orders
  import opened Protocol
  import opened ProtocolInvariant
  import opened ProtocolSteps
  import opened Guarantees

  /** How the outside answers when nobody else acts: what the provider decides about a charge that is
      sent and what it replies, whether lookups work, and whether the inventory does. */
  datatype Env = Env(decision: Decision, reply: ChargeReply, lookup: bool, stock: bool)

  predicate Sound(env: Env) { ChargeTruthful(env.decision, env.reply) }

  /** All that a recovery depends on works. */
  const WORKING := Env(Undecided, ChargeFailed(Unclassified), true, true)

  /** What a provider answers to a lookup that works. */
  function Report(d: Decision): LookupReply {
    match d
    case Undecided => NotFound
    case Approved(reference) => Found(PaymentResult(reference, "approved"))
    case _ => Found(PaymentResult("", "declined"))
  }

  /** A worker that has an action to take. */
  predicate Busy(x: Worker) { !x.crashed && !Done(x) }

  /** How the next action ends. */
  function QuietReaction(c: Cell, x: Worker, env: Env): (r: Reaction)
    requires Busy(x)
    ensures Possible(c, x, r)
  {
    match x.pc
    case Inserting(_) => Db(Executed)
    case Announcing(_, _) => Emitted
    case SendingCharge(_) => Sent
    case AwaitingCharge(_) =>
      ChargeReturned(if ChargeTruthful(c.decision, env.reply) then env.reply else ChargeFailed(Unclassified))
    case Writing(_, _, _) => Db(Executed)
    case Reloading(_, _) => RowRead(true)
    case Reserving(_) => ReserveReturned(env.stock, env.stock)
    case Finding => RowRead(true)
    case LookingUp(_) => LookupReturned(if env.lookup then Report(c.decision) else LookupFailed)
  }

  /** The provider decides about a charge once it is sent. */
  function Provided(c: Cell, x: Worker, env: Env): Cell {
    if x.pc.SendingCharge? && c.decision == Undecided then c.(decision := env.decision) else c
  }

  /** The cell after the worker's next action. */
  function QuietCell(c: Cell, w: WorkerId, x: Worker, env: Env): Cell
    requires Busy(x)
  {
    Provided(NextCell(c, w, x, QuietReaction(c, x, env)), x, env)
  }

  function QuietWorker(c: Cell, x: Worker, env: Env): Worker
    requires Busy(x)
  {
    x.(pc := NextPC(c, x, QuietReaction(c, x, env)))
  }

  /** The cell and program counter when the worker, left alone, has finished. */
  function LeftAlone(c: Cell, w: WorkerId, x: Worker, env: Env): (Cell, PC)
    decreases Distance(x.pc)
  {
    if !Busy(x) then (c, x.pc)
    else
      ActionsCountDown(c, x, QuietReaction(c, x, env));
      LeftAlone(QuietCell(c, w, x, env), w, QuietWorker(c, x, env), env)
  }

  /** The next action as moves of the whole system. */
  function QuietMoves(s: State, w: WorkerId, env: Env): seq<Move>
    requires w < |s.workers| && Busy(s.workers[w])
  {
    var x := s.workers[w];
    var r := QuietReaction(At(s, x.id), x, env);
    if x.pc.SendingCharge? && At(s, x.id).decision == Undecided && env.decision != Undecided
    then [Act(w, r), Decide(x.id, env.decision)]
    else [Act(w, r)]
  }

  lemma QuietMovesAct(s: State, w: WorkerId, env: Env)
    requires w < |s.workers| && Busy(s.workers[w])
    ensures Legal(s, QuietMoves(s, w, env))
    ensures var x, t := s.workers[w], Exec(s, QuietMoves(s, w, env));
            && At(t, x.id) == QuietCell(At(s, x.id), w, x, env)
            && t.workers == s.workers[w := QuietWorker(At(s, x.id), x, env)]
  {
    hide Legal, Exec;
    var x := s.workers[w];
    var act := Act(w, QuietReaction(At(s, x.id), x, env));
    var s1 := Apply(s, act);
    if |QuietMoves(s, w, env)| == 2 {
      TwoMoves(s, act, Decide(x.id, env.decision));
    } else {
      OneMove(s, act);
    }
  }

  lemma OneMove(s: State, m: Move)
    requires Enabled(s, m)
    ensures Legal(s, [m]) && Exec(s, [m]) == Apply(s, m)
  {
    assert [m][1..] == [];
  }

  lemma TwoMoves(s: State, m: Move, n: Move)
    requires Enabled(s, m) && Enabled(Apply(s, m), n)
    ensures Legal(s, [m, n]) && Exec(s, [m, n]) == Apply(Apply(s, m), n)
  {
    hide Enabled, Apply;
    OneMove(Apply(s, m), n);
    assert [m, n][1..] == [n];
  }

  function MovesLeftAlone(s: State, w: WorkerId, env: Env): seq<Move>
    requires w < |s.workers|
    decreases Distance(s.workers[w].pc)
  {
    var x := s.workers[w];
    if !Busy(x) then []
    else
      ActionsCountDown(At(s, x.id), x, QuietReaction(At(s, x.id), x, env));
      QuietMovesAct(s, w, env);
      QuietMoves(s, w, env) + MovesLeftAlone(Exec(s, QuietMoves(s, w, env)), w, env)
  }

  lemma {:induction false} MovesReachLeftAlone(s: State, w: WorkerId, env: Env)
    requires w < |s.workers|
    ensures Legal(s, MovesLeftAlone(s, w, env))
    ensures var t := Exec(s, MovesLeftAlone(s, w, env));
            var x := s.workers[w];
            && |t.workers| == |s.workers| && t.workers[w].id == x.id
            && (At(t, x.id), t.workers[w].pc) == LeftAlone(At(s, x.id), w, x, env)
    decreases Distance(s.workers[w].pc)
  {
    var x := s.workers[w];
    if Busy(x) {
      var first := QuietMoves(s, w, env);
      ActionsCountDown(At(s, x.id), x, QuietReaction(At(s, x.id), x, env));
      QuietMovesAct(s, w, env);
      var t := Exec(s, first);
      MovesReachLeftAlone(t, w, env);
      RunsCompose(s, first, MovesLeftAlone(t, w, env));
    }
  }

  // ---------- recovery ----------

  /** The row one undisturbed reconciliation leaves: a paid order is completed, or deferred when the
      inventory fails; a refused one is failed; an undecided one, one whose lookup fails and one
      approved without a reference are left as they are. */
  function SettledRow(o: OrderData, d: Decision, env: Env): OrderData {
    match o.status
    case Completed => o
    case Failed => o
    case Paid => o.(status := if env.stock then Completed else FulfillmentPending)
    case FulfillmentPending => if env.stock then o.(status := Completed) else o
    case _ =>
      if !env.lookup || d == Undecided || d == Approved("") then o
      else if d.Approved? then
        o.(status := if env.stock then Completed else FulfillmentPending, paymentReference := d.reference)
      else o.(status := Failed)
  }

  /** Whether it ends without an error: a failed lookup, an approval without a reference and a failed
      reservation are reported; a charge that is not decided is not. */
  predicate SettlesWell(o: OrderData, d: Decision, env: Env) {
    match o.status
    case Completed => true
    case Failed => true
    case Paid => env.stock
    case FulfillmentPending => env.stock
    case _ => env.lookup && d != Approved("") && (d.Approved? ==> env.stock)
  }

  predicate SameOutside(c: Cell, c': Cell) {
    c'.decision == c.decision && c'.inflight == c.inflight && c'.charges == c.charges
  }

  lemma FulfillsLeftAlone(c: Cell, w: WorkerId, x: Worker, env: Env)
    requires Busy(x) && x.side == Recovery && x.pc.Reserving? && c.row == Some(x.pc.order)
    requires x.pc.order.status == Paid || x.pc.order.status == FulfillmentPending
    ensures var (c', pc) := LeftAlone(c, w, x, env);
            && c'.row == Some(SettledRow(x.pc.order, c.decision, env)) && pc == Finished(env.stock)
            && SameOutside(c, c')
  {
    var o := x.pc.order;
    var c1, x1 := QuietCell(c, w, x, env), QuietWorker(c, x, env);
    assert LeftAlone(c, w, x, env) == LeftAlone(c1, w, x1, env);
    if env.stock || o.status == Paid { var c2 := WritesLeftAlone(c1, w, x1, env); }
  }

  lemma DoneLeftAlone(c: Cell, w: WorkerId, x: Worker, env: Env)
    requires Done(x)
    ensures LeftAlone(c, w, x, env) == (c, x.pc)
  {
  }

  /** Left alone, a write succeeds and is announced. */
  lemma WritesLeftAlone(c: Cell, w: WorkerId, x: Worker, env: Env) returns (c': Cell)
    requires Busy(x) && x.pc.Writing? && c.row == Some(x.pc.previous) && Succeeds(x.pc.previous, x.pc.next)
    ensures c'.row == Some(x.pc.next) && SameOutside(c, c') && c'.reserved == c.reserved
    ensures LeftAlone(c, w, x, env) == LeftAlone(c', w, x.(pc := AfterAnnounce(x.side, x.pc.next, x.pc.goal)), env)
  {
    var c1, x1 := QuietCell(c, w, x, env), QuietWorker(c, x, env);
    SuccessorKeepsColumns(x.pc.previous, x.pc.next);
    assert x1.pc == Announcing(x.pc.next, x.pc.goal);
    assert LeftAlone(c, w, x, env) == LeftAlone(c1, w, x1, env);
    c' := QuietCell(c1, w, x1, env);
    assert LeftAlone(c1, w, x1, env) == LeftAlone(c', w, QuietWorker(c1, x1, env), env);
  }

  lemma ResolvesLeftAlone(c: Cell, w: WorkerId, x: Worker, env: Env)
    requires Busy(x) && x.side == Recovery && x.pc.LookingUp? && c.row == Some(x.pc.order)
    requires x.pc.order.status == Pending || x.pc.order.status == PaymentUnknown
    ensures var (c', pc) := LeftAlone(c, w, x, env);
            && c'.row == Some(SettledRow(x.pc.order, c.decision, env)) && SameOutside(c, c')
            && pc == Finished(SettlesWell(x.pc.order, c.decision, env))
  {
    var o := x.pc.order;
    var x1 := QuietWorker(c, x, env);
    assert QuietCell(c, w, x, env) == c;
    assert LeftAlone(c, w, x, env) == LeftAlone(c, w, x1, env);
    if x1.pc.Writing? {
      var c' := WritesLeftAlone(c, w, x1, env);
      if x1.pc.next.status == Paid { FulfillsLeftAlone(c', w, x1.(pc := Reserving(x1.pc.next)), env); }
    }
  }

  /** One undisturbed reconciliation settles the row, says whether it could, and touches neither the
      charge nor the provider's decision. */
  lemma ReconciliationSettles(c: Cell, w: WorkerId, k: Id, env: Env)
    requires c.row.Some?
    ensures var (c', pc) := LeftAlone(c, w, Worker(k, Recovery, Finding, false), env);
            && c'.row == Some(SettledRow(c.row.value, c.decision, env)) && SameOutside(c, c')
            && pc == Finished(SettlesWell(c.row.value, c.decision, env))
  {
    var o := c.row.value;
    var x := Worker(k, Recovery, Finding, false);
    var x1 := QuietWorker(c, x, env);
    assert QuietCell(c, w, x, env) == c && x1 == x.(pc := AfterFind(c.row));
    assert LeftAlone(c, w, x, env) == LeftAlone(c, w, x1, env);
    if o.status == Pending || o.status == PaymentUnknown { ResolvesLeftAlone(c, w, x1, env); }
    else if o.status == Paid || o.status == FulfillmentPending { FulfillsLeftAlone(c, w, x1, env); }
  }

  /** The moves of one undisturbed reconciliation of k started in s. */
  function ReconcilingMoves(s: State, k: Id, env: Env): seq<Move> {
    [Recover(k)] + MovesLeftAlone(Apply(s, Recover(k)), |s.workers|, env)
  }

  lemma StartedAlone(run: seq<Move>, start: Move, env: Env)
    requires Legal(INIT, run) && Enabled(Exec(INIT, run), start) && (start.Submit? || start.Recover?)
    ensures var s := Exec(INIT, run);
            var w, s1 := |s.workers|, Apply(s, start);
            var moves := [start] + MovesLeftAlone(s1, w, env);
            && Legal(INIT, run + moves)
            && var t, x := Exec(INIT, run + moves), s1.workers[w];
               && w < |t.workers| && t.workers[w].id == x.id
               && (At(t, x.id), t.workers[w].pc) == LeftAlone(At(s, x.id), w, x, env)
  {
    var s := Exec(INIT, run);
    var s1 := Apply(s, start);
    var moves := MovesLeftAlone(s1, |s.workers|, env);
    MovesReachLeftAlone(s1, |s.workers|, env);
    assert ([start] + moves)[0] == start && ([start] + moves)[1..] == moves;
    RunsCompose(INIT, run, [start] + moves);
    assert At(s1, s1.workers[|s.workers|].id) == At(s, s1.workers[|s.workers|].id);
  }

  /** From every reachable state, however many workers crashed or are stuck, one undisturbed
      reconciliation of an approved order ends completed with the provider's reference if and only
      if the provider gave one; it is a run of the system and sends no charge. */
  lemma RecoveryFromAnywhere(run: seq<Move>, k: Id)
    requires Legal(INIT, run) && At(Exec(INIT, run), k).decision.Approved?
    ensures Legal(INIT, run + ReconcilingMoves(Exec(INIT, run), k, WORKING))
    ensures var c, c' := At(Exec(INIT, run), k), At(Exec(INIT, run + ReconcilingMoves(Exec(INIT, run), k, WORKING)), k);
            && c.row.Some? && c'.row.Some? && c'.decision == c.decision && c'.charges == c.charges
            && (c'.row.value.status == Completed <==> c.decision.reference != "")
            && (c.decision.reference != "" ==>
                  c'.row.value.paymentReference == c.decision.reference && c'.reserved == Some(c'.row.value.items))
            && (c.decision.reference == "" ==> c'.row == c.row && !Terminal(c.row.value.status))
  {
    hide CellInv, LeftAlone, MovesLeftAlone;
    var s := Exec(INIT, run);
    StartedAlone(run, Recover(k), WORKING);
    Reached(run, k);
    Reached(run + ReconcilingMoves(s, k, WORKING), k);
    ApprovedRowFacts(At(s, k), k);
    ReconciliationSettles(At(s, k), |s.workers|, k, WORKING);
    var c' := At(Exec(INIT, run + ReconcilingMoves(s, k, WORKING)), k);
    if c'.row.value.status == Completed { TerminalRowFacts(c', k); }
  }

  /** The other half for all time: an approval without a reference never leads to a paid, failed or
      completed row, in no continuation and by no worker. */
  lemma ApprovalWithoutReferenceNeverSettles(run: seq<Move>, more: seq<Move>, k: Id)
    requires Legal(INIT, run + more) && Legal(INIT, run) && At(Exec(INIT, run), k).decision == Approved("")
    ensures var later := At(Exec(INIT, run + more), k);
            later.row.Some? && (later.row.value.status == Pending || later.row.value.status == PaymentUnknown)
  {
    hide CellInv;
    Continue(run, more, k);
    Reached(run + more, k);
    ApprovedRowFacts(At(Exec(INIT, run + more), k), k);
  }

  lemma ApprovedRowFacts(c: Cell, k: Id)
    requires CellInv(c, k) && c.decision.Approved?
    ensures c.row.Some? && c.row.value.status != Failed
    ensures PaidUp(c.row.value.status) ==> c.decision.reference != "" && c.row.value.paymentReference == c.decision.reference
  {
    var last := |c.commits| - 1;
    assert Truth(c.decision, c.commits[last].row);
  }

  // ---------- requests ----------

  /** What an undisturbed request for a fresh order leaves, returns and is answered. */
  predicate Served(o: OrderData, env: Env, row: OrderData, err: Error, code: int) {
    match env.reply
    case Charged(res) =>
      if res.status == "approved" then
        if env.stock then
          row == o.(status := Completed, paymentReference := res.reference) && err == {} && code == 201
        else
          && row == o.(status := FulfillmentPending, paymentReference := res.reference)
          && err == {FulfillmentPendingError, Port} && code == 202
      else if res.status == "declined" then
        row == o.(status := Failed) && err == {} && code == 402
      else
        row == o.(status := PaymentUnknown) && err == {PaymentUncertain} && code == 202
    case ChargeFailed(e) =>
      if e.HttpStatus? && e.code < 500 && e.code !in {408, 409, 425, 429} then
        row == o.(status := Failed) && err == {PaymentRejected, Port} && code == 502
      else
        row == o.(status := PaymentUnknown) && err == {PaymentUncertain, Port} && code == 202
  }

  ghost predicate ServedAlone(o: OrderData, env: Env, c: Cell, pc: PC) {
    && pc.Returned? && pc.result.Some? && c.row == pc.result
    && Served(o, env, pc.result.value, pc.err, HttpStatusOf(pc.result, pc.err))
    && c.decision == env.decision && |c.charges| == 1
    && c.reserved == if c.row.value.status == Completed then Some(o.items) else None
  }

  lemma RequestReservesLeftAlone(c: Cell, w: WorkerId, x: Worker, env: Env)
    requires Busy(x) && x.side == Foreground && x.pc.Reserving? && c.row == Some(x.pc.order)
    requires x.pc.order.status == Paid && c.reserved.None?
    ensures var (c', pc) := LeftAlone(c, w, x, env);
            && SameOutside(c, c')
            && if env.stock then
                 && c'.row == Some(x.pc.order.(status := Completed)) && c'.reserved == Some(x.pc.order.items)
                 && pc == Returned(c'.row, {})
               else
                 && c'.row == Some(x.pc.order.(status := FulfillmentPending)) && c'.reserved == None
                 && pc == Returned(c'.row, {FulfillmentPendingError, Port})
  {
    var c1, x1 := QuietCell(c, w, x, env), QuietWorker(c, x, env);
    assert LeftAlone(c, w, x, env) == LeftAlone(c1, w, x1, env);
    hide LeftAlone;
    var c2 := WritesLeftAlone(c1, w, x1, env);
    DoneLeftAlone(c2, w, x1.(pc := AfterAnnounce(Foreground, x1.pc.next, x1.pc.goal)), env);
  }

  /** The reply is written and announced. */
  lemma ReplyWrittenAlone(o: OrderData, c: Cell, w: WorkerId, x: Worker, env: Env) returns (c': Cell, x': Worker)
    requires Busy(x) && x.side == Foreground && x.pc == AwaitingCharge(o) && c.row == Some(o) && o.status == Pending
    requires c.decision == env.decision && Sound(env)
    ensures LeftAlone(c, w, x, env) == LeftAlone(c', w, x', env)
    ensures c'.row.Some? && SameOutside(c, c') && c'.reserved == c.reserved
    ensures var n, g := AfterCharge(o, env.reply).next, AfterCharge(o, env.reply).goal;
            c'.row == Some(n) && x' == Worker(x.id, Foreground, AfterAnnounce(Foreground, n, g), false)
  {
    var x1 := QuietWorker(c, x, env);
    assert QuietCell(c, w, x, env) == c && x1 == x.(pc := AfterCharge(o, env.reply));
    assert LeftAlone(c, w, x, env) == LeftAlone(c, w, x1, env);
    hide LeftAlone, QuietCell, QuietWorker;
    c' := WritesLeftAlone(c, w, x1, env);
    x' := x1.(pc := AfterAnnounce(Foreground, x1.pc.next, x1.pc.goal));
  }

  lemma ChargedLeftAlone(o: OrderData, c: Cell, w: WorkerId, x: Worker, env: Env)
    requires Busy(x) && x.side == Foreground && x.pc == AwaitingCharge(o) && c.row == Some(o) && o.status == Pending
    requires c.decision == env.decision && Sound(env) && c.reserved.None? && |c.charges| == 1
    ensures var (c', pc) := LeftAlone(c, w, x, env); ServedAlone(o, env, c', pc)
  {
    hide LeftAlone, QuietCell, QuietWorker;
    var c', x' := ReplyWrittenAlone(o, c, w, x, env);
    if c'.row.value.status == Paid { RequestReservesLeftAlone(c', w, x', env); } else { DoneLeftAlone(c', w, x', env); }
  }

  /** From the insert on. */
  lemma RequestLeftAlone(o: OrderData, c: Cell, w: WorkerId, env: Env)
    requires Fresh(o) && c.row.None? && c.decision == Undecided && c.reserved.None? && c.charges == [] && Sound(env)
    ensures var (c', pc) := LeftAlone(c, w, Worker(o.id, Foreground, Inserting(o), false), env);
            ServedAlone(o, env, c', pc)
  {
    var x0 := Worker(o.id, Foreground, Inserting(o), false);
    var c1, x1 := QuietCell(c, w, x0, env), QuietWorker(c, x0, env);
    assert x1.pc == Announcing(o, Created) && c1.row == Some(o);
    var c2, x2 := QuietCell(c1, w, x1, env), QuietWorker(c1, x1, env);
    assert x2.pc == SendingCharge(o) && c2.row == Some(o);
    var c3, x3 := QuietCell(c2, w, x2, env), QuietWorker(c2, x2, env);
    assert x3.pc == AwaitingCharge(o) && c3.row == Some(o) && c3.decision == env.decision;
    assert LeftAlone(c, w, x0, env) == LeftAlone(c1, w, x1, env);
    assert LeftAlone(c1, w, x1, env) == LeftAlone(c2, w, x2, env);
    assert LeftAlone(c2, w, x2, env) == LeftAlone(c3, w, x3, env);
    ChargedLeftAlone(o, c3, w, x3, env);
  }

  /** An ID that is taken: the insert is refused, nothing is changed, and no charge is sent. */
  lemma TakenIdLeftAlone(o: OrderData, c: Cell, w: WorkerId, env: Env)
    requires c.row.Some?
    ensures LeftAlone(c, w, Worker(o.id, Foreground, Inserting(o), false), env) == (c, Returned(None, {Port}))
  {
    var x := Worker(o.id, Foreground, Inserting(o), false);
    assert LeftAlone(c, w, x, env) == LeftAlone(QuietCell(c, w, x, env), w, QuietWorker(c, x, env), env);
  }

  function RequestMoves(s: State, o: OrderData, env: Env): seq<Move>
    requires Fresh(o)
  {
    [Submit(o)] + MovesLeftAlone(Apply(s, Submit(o)), |s.workers|, env)
  }

  lemma UnknownIdIsUntouched(c: Cell, k: Id)
    requires CellInv(c, k) && c.row.None?
    ensures c.decision == Undecided && c.reserved.None? && c.charges == []
  {
  }

  /** From every reachable state, an undisturbed request under an unused ID is a run of the system and
      ends as the provider and the inventory say: completed, failed, unknown or to be fulfilled
      later, with the row, the result and the response that belong to it, and with one charge. */
  lemma UndisturbedRequest(run: seq<Move>, o: OrderData, env: Env)
    requires Legal(INIT, run) && Fresh(o) && At(Exec(INIT, run), o.id).row.None? && Sound(env)
    ensures Legal(INIT, run + RequestMoves(Exec(INIT, run), o, env))
    ensures var s := Exec(INIT, run);
            var t, w := Exec(INIT, run + RequestMoves(s, o, env)), |s.workers|;
            w < |t.workers| && t.workers[w].id == o.id && ServedAlone(o, env, At(t, o.id), t.workers[w].pc)
  {
    hide CellInv, LeftAlone, MovesLeftAlone, ServedAlone;
    var s := Exec(INIT, run);
    StartedAlone(run, Submit(o), env);
    Reached(run, o.id);
    UnknownIdIsUntouched(At(s, o.id), o.id);
    RequestLeftAlone(o, At(s, o.id), |s.workers|, env);
  }
}
