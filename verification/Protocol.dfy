/** The order/payment/fulfilment protocol as a state machine.  Any number of foreground requests
    and recovery workers share the rows; each externally visible action is one atomic step, and a
    worker's program counter holds exactly the local values the code carries to its next action. */
module Protocol {
  import opened Common
  import opened Domain
  import opened Payment
  import opened Orders

  type WorkerId = nat

  /** One committed write of a row: the state written, its author, and whether the author was
      told that it succeeded. */
  datatype Commit = Commit(row: OrderData, author: WorkerId, acked: bool)

  datatype ChargeCall = ChargeCall(author: WorkerId, key: Id, customerId: string, amount: int64)

  datatype ReserveCall = ReserveCall(author: WorkerId, key: Id, items: seq<OrderItem>, seen: Option<OrderStatus>)

  /** Everything outside the workers that concerns one order ID: its row, the log of committed
      writes, the provider's and the inventory's view of the idempotency key, and the event log. */
  datatype Cell = Cell(
    row: Option<OrderData>, commits: seq<Commit>,
    inflight: bool, decision: Decision, charges: seq<ChargeCall>,
    reserved: Option<seq<OrderItem>>, reserves: seq<ReserveCall>,
    emitted: seq<string>)

  const EMPTY_CELL := Cell(None, [], false, Undecided, [], None, [], [])

  datatype Side = Foreground | Recovery

  /** Why a conditional write is attempted; it decides what the worker does afterwards. */
  datatype Goal =
    | Created                                                       // the initial insert
    | Unclear | Refusal | DeclinedCharge | ApprovedCharge | BadStatus // Execute, after Charge
    | Resolved                                                      // recovery, after LookupCharge
    | Unreserved | Fulfilled                                        // both, after Reserve

  datatype PC =
    | Inserting(order: OrderData)
    | Announcing(order: OrderData, goal: Goal)
    | SendingCharge(order: OrderData)
    | AwaitingCharge(order: OrderData)
    | Writing(previous: OrderData, next: OrderData, goal: Goal)
    | Reloading(previous: OrderData, goal: Goal)
    | Reserving(order: OrderData)
    | Finding
    | LookingUp(order: OrderData)
    | Returned(result: Option<OrderData>, err: Error)
    | Finished(ok: bool)

  datatype Worker = Worker(id: Id, side: Side, pc: PC, crashed: bool)

  /** A statement whose caller was told of an error but that the database may still execute: an
      INSERT, or an UPDATE conditional on the status of the previous state. */
  datatype LateWrite = LateWrite(author: WorkerId, previous: Option<OrderData>, next: OrderData)

  datatype State = State(cells: map<Id, Cell>, workers: seq<Worker>, late: seq<LateWrite>)

  const INIT := State(map[], [], [])

  predicate Done(x: Worker) { x.pc.Returned? || x.pc.Finished? }

  function At(s: State, k: Id): Cell {
    if k in s.cells then s.cells[k] else EMPTY_CELL
  }

  // ---------- what the code computes between two actions ----------

  function AfterInsert(o: OrderData, accepted: bool): PC {
    if accepted then Announcing(o, Created) else Returned(None, {Port})
  }

  function AfterCharge(o: OrderData, r: ChargeReply): PC {
    match r
    case ChargeFailed(e) =>
      if OutcomeMayHaveCommitted(e) then Writing(o, Marked(o, Doubt), Unclear)
      else Writing(o, Marked(o, Fail), Refusal)
    case Charged(res) =>
      if res.status == "declined" then Writing(o, Marked(o, Fail), DeclinedCharge)
      else if res.status == "approved" then Writing(o, Marked(o, Pay(res.reference)), ApprovedCharge)
      else Writing(o, Marked(o, Doubt), BadStatus)
  }

  /** The error Execute returns when a conditional write reported an error. */
  function WriteError(g: Goal): Error {
    match g
    case DeclinedCharge => {Port}
    case Refusal => {PaymentRejected, Port}
    case Unreserved => {FulfillmentPendingError, Port}
    case Fulfilled => {FulfillmentPendingError, Port}
    case _ => {PaymentUncertain, Port}
  }

  /** The error Execute returns when another worker moved the row first. */
  function ConflictError(g: Goal, reloaded: bool): Error {
    (if g == Unreserved || g == Fulfilled then {FulfillmentPendingError} else {PaymentUncertain})
    + {ConcurrentStateChange} + (if reloaded then {} else {Port})
  }

  function AfterConflict(side: Side, previous: OrderData, g: Goal): PC {
    if side == Foreground then Reloading(previous, g)
    else Finished(g != Unreserved)
  }

  function AfterWriteError(side: Side, previous: OrderData, g: Goal): PC {
    if side == Foreground then Returned(Some(previous), WriteError(g)) else Finished(false)
  }

  function AfterReload(previous: OrderData, g: Goal, row: Option<OrderData>): PC {
    if row.Some? then Returned(row, ConflictError(g, true))
    else Returned(Some(previous), ConflictError(g, false))
  }

  function AfterAnnounce(side: Side, o: OrderData, g: Goal): PC {
    if side == Recovery then
      if g == Resolved && o.status != Failed then Reserving(o) else Finished(g != Unreserved)
    else match g
      case Created => SendingCharge(o)
      case ApprovedCharge => Reserving(o)
      case Unclear => Returned(Some(o), {PaymentUncertain, Port})
      case Refusal => Returned(Some(o), {PaymentRejected, Port})
      case BadStatus => Returned(Some(o), {PaymentUncertain})
      case Unreserved => Returned(Some(o), {FulfillmentPendingError, Port})
      case _ => Returned(Some(o), Nil)
  }

  function AfterReserve(side: Side, o: OrderData, ok: bool): PC {
    if ok then Writing(o, Marked(o, Finish), Fulfilled)
    else if side == Foreground || o.status == Paid then Writing(o, Marked(o, Defer), Unreserved)
    else Finished(false)
  }

  function AfterFind(row: Option<OrderData>): PC {
    match row
    case None => Finished(false)
    case Some(o) =>
      match o.status
      case Pending => LookingUp(o)
      case PaymentUnknown => LookingUp(o)
      case Paid => Reserving(o)
      case FulfillmentPending => Reserving(o)
      case _ => Finished(true)
  }

  function AfterLookup(o: OrderData, r: LookupReply): PC {
    match r
    case LookupFailed => Finished(false)
    case NotFound => Finished(true)
    case Found(res) =>
      if res.status == "approved" then
        if res.reference == "" then Finished(false) else Writing(o, Marked(o, Pay(res.reference)), Resolved)
      else if res.status == "declined" then Writing(o, Marked(o, Fail), Resolved)
      else Finished(false)
  }

  // ---------- one action of one worker ----------

  datatype Reaction =
    | Db(reply: DbReply)
    | Emitted
    | Sent
    | ChargeReturned(charge: ChargeReply)
    | RowRead(ok: bool)
    | ReserveReturned(effect: bool, ok: bool)
    | LookupReturned(lookup: LookupReply)

  /** The reactions the environment may give at a program counter. */
  predicate Possible(c: Cell, x: Worker, r: Reaction) {
    && !x.crashed
    && match x.pc
       case Inserting(_) => r.Db?
       case Announcing(_, _) => r.Emitted?
       case SendingCharge(_) => r.Sent?
       case AwaitingCharge(_) => r.ChargeReturned? && ChargeTruthful(c.decision, r.charge)
       case Writing(_, _, _) => r.Db?
       case Reloading(_, _) => r.RowRead?
       case Reserving(_) => r.ReserveReturned? && (r.ok ==> r.effect)
       case Finding => r.RowRead?
       case LookingUp(_) => r.LookupReturned? && LookupTruthful(c.decision, r.lookup)
       case Returned(_, _) => false
       case Finished(_) => false
  }

  predicate RowMatches(c: Cell, expected: OrderStatus) {
    c.row.Some? && c.row.value.status == expected
  }

  /** INSERT: refused when the primary key is taken. */
  function InsertRow(c: Cell, o: OrderData, w: WorkerId, reply: DbReply): Cell {
    if c.row.Some? || !TakesEffect(reply) then c
    else c.(row := Some(o), commits := c.commits + [Commit(o, w, reply == Executed)])
  }

  /** UPDATE ... WHERE status = expected: writes two columns of the row that is there. */
  function UpdateRow(c: Cell, o: OrderData, expected: OrderStatus, w: WorkerId, reply: DbReply): Cell {
    if !RowMatches(c, expected) || !TakesEffect(reply) then c
    else
      var row := c.row.value.(status := o.status, paymentReference := o.paymentReference);
      c.(row := Some(row), commits := c.commits + [Commit(row, w, reply == Executed)])
  }

  /** The statement that the action leaves with the database, if any. */
  function LeftLate(w: WorkerId, x: Worker, r: Reaction): seq<LateWrite> {
    if r != Db(ErrorMeanwhile) then []
    else match x.pc
      case Inserting(o) => [LateWrite(w, None, o)]
      case Writing(p, n, _) => [LateWrite(w, Some(p), n)]
      case _ => []
  }

  /** Executed at last, and nobody is told. */
  function LateCell(c: Cell, l: LateWrite): Cell {
    match l.previous
    case None => InsertRow(c, l.next, l.author, ErrorAfter)
    case Some(p) => UpdateRow(c, l.next, p.status, l.author, ErrorAfter)
  }

  function StatusOf(c: Cell): Option<OrderStatus> {
    if c.row.Some? then Some(c.row.value.status) else None
  }

  function Reserved(c: Cell, items: seq<OrderItem>, effect: bool): Option<seq<OrderItem>> {
    if effect && c.reserved.None? then Some(items) else c.reserved
  }

  /** The worker's next program counter, and what the action does to the order's cell. */
  function NextPC(c: Cell, x: Worker, r: Reaction): PC
    requires Possible(c, x, r)
  {
    match x.pc
    case Inserting(o) => AfterInsert(o, c.row.None? && r.reply == Executed)
    case Announcing(o, g) => AfterAnnounce(x.side, o, g)
    case SendingCharge(o) => AwaitingCharge(o)
    case AwaitingCharge(o) => AfterCharge(o, r.charge)
    case Writing(p, n, g) =>
      if r.reply != Executed then AfterWriteError(x.side, p, g)
      else if RowMatches(c, p.status) then Announcing(n, g)
      else AfterConflict(x.side, p, g)
    case Reloading(p, g) => AfterReload(p, g, if r.ok then c.row else None)
    case Reserving(o) => AfterReserve(x.side, o, r.ok)
    case Finding => AfterFind(if r.ok then c.row else None)
    case LookingUp(o) => AfterLookup(o, r.lookup)
  }

  function NextCell(c: Cell, w: WorkerId, x: Worker, r: Reaction): Cell
    requires Possible(c, x, r)
  {
    match x.pc
    case Inserting(o) => InsertRow(c, o, w, r.reply)
    case Announcing(o, _) => c.(emitted := c.emitted + [EventName(o.status)])
    case SendingCharge(o) =>
      c.(inflight := true, charges := c.charges + [ChargeCall(w, o.id, o.customerId, TotalCents(o.items))])
    case Writing(p, n, _) => UpdateRow(c, n, p.status, w, r.reply)
    case Reserving(o) =>
      c.(reserved := Reserved(c, o.items, r.effect),
         reserves := c.reserves + [ReserveCall(w, o.id, o.items, StatusOf(c))])
    case _ => c
  }

  // ---------- the whole system ----------

  datatype Move =
    | Submit(order: OrderData)              // a request passed validation and starts
    | Recover(id: Id)                       // a recovery of one order starts
    | Act(w: WorkerId, reaction: Reaction)  // a worker performs its next action
    | Crash(w: WorkerId)
    | Decide(id: Id, decision: Decision)    // the provider decides a charge request in flight
    | LoseRequest(id: Id)                   // a charge request never reaches the provider
    | ReserveLate(id: Id)                   // a reservation request takes effect after its caller gave up
    | WriteLate(i: nat)                     // so does a database statement

  predicate Enabled(s: State, m: Move) {
    match m
    case Submit(o) => Fresh(o)
    case Recover(k) => true
    case Act(w, r) => w < |s.workers| && Possible(At(s, s.workers[w].id), s.workers[w], r)
    case Crash(w) => w < |s.workers|
    case Decide(k, d) => At(s, k).inflight && At(s, k).decision == Undecided && d != Undecided
    case LoseRequest(k) => At(s, k).inflight
    case ReserveLate(k) => At(s, k).reserves != []
    case WriteLate(i) => i < |s.late|
  }

  function Start(s: State, x: Worker): State {
    State(s.cells[x.id := At(s, x.id)], s.workers + [x], s.late)
  }

  function Put(s: State, k: Id, c: Cell): State { s.(cells := s.cells[k := c]) }

  function Apply(s: State, m: Move): State
    requires Enabled(s, m)
  {
    match m
    case Submit(o) => Start(s, Worker(o.id, Foreground, Inserting(o), false))
    case Recover(k) => Start(s, Worker(k, Recovery, Finding, false))
    case Act(w, r) =>
      var x := s.workers[w];
      State(s.cells[x.id := NextCell(At(s, x.id), w, x, r)],
            s.workers[w := x.(pc := NextPC(At(s, x.id), x, r))],
            s.late + LeftLate(w, x, r))
    case Crash(w) => s.(workers := s.workers[w := s.workers[w].(crashed := true)])
    case Decide(k, d) => Put(s, k, At(s, k).(decision := d))
    case LoseRequest(k) => Put(s, k, At(s, k).(inflight := false))
    case ReserveLate(k) =>
      Put(s, k, At(s, k).(reserved := Reserved(At(s, k), At(s, k).reserves[0].items, true)))
    case WriteLate(i) =>
      var l := s.late[i];
      Put(s, l.next.id, LateCell(At(s, l.next.id), l)).(late := s.late[..i] + s.late[i + 1..])
  }

  /** A finite interleaving: every move is enabled where it is taken. */
  predicate Legal(s: State, run: seq<Move>)
    decreases |run|
  {
    run == [] || (Enabled(s, run[0]) && Legal(Apply(s, run[0]), run[1..]))
  }

  function Exec(s: State, run: seq<Move>): State
    requires Legal(s, run)
    decreases |run|
  {
    if run == [] then s else Exec(Apply(s, run[0]), run[1..])
  }

  lemma {:induction false} RunsCompose(s: State, a: seq<Move>, b: seq<Move>)
    requires Legal(s, a)
    ensures Legal(s, a + b) <==> Legal(Exec(s, a), b)
    ensures Legal(s, a + b) ==> Exec(s, a + b) == Exec(Exec(s, a), b)
    decreases |a|
  {
    if a == [] {
      assert a + b == b;
    } else {
      assert (a + b)[0] == a[0] && (a + b)[1..] == a[1..] + b;
      RunsCompose(Apply(s, a[0]), a[1..], b);
    }
  }

  // ---------- the orders table inside a state ----------

  function Table(s: State): map<Id, Row> {
    map k | k in s.cells && s.cells[k].row.Some? :: ToRow(s.cells[k].row.value)
  }
}
