/** The world an imperative worker runs in.  Every port call is preceded by any number of moves of
    other workers, the provider and the inventory, and is itself one move of the protocol; the
    ghost trace records the interleaving, so whatever the code does is a run of the protocol. */
module Worlds {
  import opened Common
  import opened Domain
  import opened Payment
  import opened Orders
  import opened Protocol
  import opened ProtocolSteps
  import opened Guarantees
  import opened Settlement

  function DataOf(o: Order?): Option<OrderData>
    reads o
  {
    if o == null then None else Some(o.Data())
  }

  /** How a row that was read, by either side, determines the next program counter. */
  function AfterRead(pc: PC, row: Option<OrderData>): PC
    requires pc.Finding? || pc.Reloading?
  {
    if pc.Finding? then AfterFind(row) else AfterReload(pc.previous, pc.goal, row)
  }

  /** Between s and t only worker me, left alone, acted: no other cell changed, and what me will
      reach when left alone is the same. */
  ghost predicate Alongside(s: State, t: State, me: nat, env: Env) {
    && me < |s.workers| == |t.workers| && s.workers[me].id == t.workers[me].id
    && (forall j :: j != s.workers[me].id ==> At(t, j) == At(s, j))
    && LeftAlone(At(t, s.workers[me].id), me, t.workers[me], env)
       == LeftAlone(At(s, s.workers[me].id), me, s.workers[me], env)
  }

  lemma AlongsideCompose(a: State, b: State, c: State, me: nat, env: Env)
    requires Alongside(a, b, me, env) && Alongside(b, c, me, env)
    ensures Alongside(a, c, me, env)
  {
  }

  lemma OthersMoveKeepsWorker(s: State, m: Move, me: nat)
    requires Enabled(s, m) && !((m.Act? || m.Crash?) && m.w == me)
    ensures |s.workers| <= |Apply(s, m).workers|
    ensures me < |s.workers| ==> Apply(s, m).workers[me] == s.workers[me]
  {
  }

  /** A worker's write does to the table what the repository's statement does, and the status it is
      conditional on matches in the one exactly if it matches in the other. */
  lemma StatementOnTable(trace: seq<Move>, me: nat, reply: DbReply)
    requires Legal(INIT, trace) && Enabled(Exec(INIT, trace), Act(me, Db(reply)))
    ensures var s := Exec(INIT, trace);
            var x := s.workers[me];
            && Table(Apply(s, Act(me, Db(reply)))) == TableAfter(s, Act(me, Db(reply)))
            && (x.pc.Inserting? ==> x.pc.order.id == x.id && (x.id in Table(s) <==> At(s, x.id).row.Some?))
            && (x.pc.Writing? ==>
                  x.pc.next.id == x.id
                  && (Matches(Table(s), x.id, x.pc.previous.status) <==> RowMatches(At(s, x.id), x.pc.previous.status)))
  {
    var s := Exec(INIT, trace);
    var x := s.workers[me];
    ReachedWorker(trace, me);
    MovesActThroughStatements(trace, Act(me, Db(reply)));
    TableHas(s, x.id);
    if x.pc.Writing? { WrittenRowIsOwn(At(s, x.id), x.id, me, x); }
  }

  lemma WrittenRowIsOwn(c: Cell, k: Id, w: nat, x: Worker)
    requires Good(c, k, w, x) && x.pc.Writing?
    ensures x.pc.next.id == k
  {
    SuccessorRaisesRank(x.pc.previous, x.pc.next);
    HeldHasId(c, k, x.pc.previous);
  }

  class World {
    /** In a quiet world nobody else acts, the database works, and the rest answers as `env` says. */
    const quiet: bool
    const env: Env
    var s: State
    ghost var trace: seq<Move>

    ghost predicate Valid()
      reads this
    {
      Legal(INIT, trace) && s == Exec(INIT, trace) && Sound(env)
    }

    /** Worker me is alive and exactly as described. */
    predicate Runs(me: nat, x: Worker)
      reads this
    {
      me < |s.workers| && s.workers[me] == x && !x.crashed
    }

    /** The world that any run has led to. */
    constructor (quiet: bool, env: Env, run: seq<Move>)
      requires Legal(INIT, run) && Sound(env)
      ensures Valid() && trace == run && this.quiet == quiet && this.env == env
    {
      this.quiet, this.env := quiet, env;
      s, trace := Exec(INIT, run), run;
    }

    /** One move of the system. */
    method Advance(m: Move)
      requires Valid() && Enabled(s, m)
      modifies this
      ensures Valid() && trace == old(trace) + [m] && s == Apply(old(s), m)
    {
      RunsCompose(INIT, trace, [m]);
      s := Apply(s, m);
      trace := trace + [m];
    }

    /** Any number of moves by anyone but worker me. */
    method Interfere(me: nat)
      requires Valid()
      modifies this
      ensures Valid() && old(trace) <= trace && |old(s.workers)| <= |s.workers|
      ensures me < |old(s.workers)| ==> s.workers[me] == old(s.workers[me])
      ensures quiet ==> s == old(s) && trace == old(trace)
    {
      var steps: nat := *;
      while !quiet && steps > 0
        invariant Valid() && old(trace) <= trace && |old(s.workers)| <= |s.workers|
        invariant me < |old(s.workers)| ==> s.workers[me] == old(s.workers[me])
        invariant quiet ==> s == old(s) && trace == old(trace)
        decreases steps
      {
        var m: Move := *;
        if Enabled(s, m) && !((m.Act? || m.Crash?) && m.w == me) {
          OthersMoveKeepsWorker(s, m, me);
          Advance(m);
        }
        steps := steps - 1;
      }
    }

    /** The next action of worker me with the given reaction. */
    method Perform(me: nat, ghost x: Worker, r: Reaction)
      requires Valid() && Runs(me, x) && Possible(At(s, x.id), x, r)
      requires quiet ==> r == QuietReaction(At(s, x.id), x, env)
      modifies this
      ensures Valid() && old(trace) <= trace && |s.workers| == |old(s.workers)|
      ensures Enabled(old(s), Act(me, r)) && s == Apply(old(s), Act(me, r))
      ensures Runs(me, x.(pc := NextPC(old(At(s, x.id)), x, r)))
      ensures quiet && !x.pc.SendingCharge? ==> Alongside(old(s), s, me, env)
    {
      ghost var before := s;
      Advance(Act(me, r));
      if quiet && !x.pc.SendingCharge? { ActionsCountDown(At(before, x.id), x, r); }
    }

    // ---------- the ports ----------

    /** A validated request enters with its new order. */
    method Submit(o: Order) returns (me: nat, ghost x: Worker)
      requires Valid() && Fresh(o.Data())
      modifies this
      ensures Valid() && old(trace) <= trace && me >= |old(s.workers)|
      ensures |old(trace)| < |trace| && trace[|trace| - 1] == Protocol.Submit(o.Data())
      ensures quiet ==> forall j :: At(s, j) == old(At(s, j))
      ensures x == Worker(o.id, Foreground, Inserting(o.Data()), false) && Runs(me, x)
    {
      Interfere(|s.workers|);
      me := |s.workers|;
      x := Worker(o.id, Foreground, Inserting(o.Data()), false);
      Advance(Protocol.Submit(o.Data()));
    }

    /** A recovery of order k enters. */
    method Recover(k: Id) returns (me: nat, ghost x: Worker)
      requires Valid()
      modifies this
      ensures Valid() && old(trace) <= trace && me >= |old(s.workers)|
      ensures x == Worker(k, Recovery, Finding, false) && Runs(me, x)
      ensures quiet ==> me == |old(s.workers)| && forall j :: At(s, j) == old(At(s, j))
    {
      Interfere(|s.workers|);
      me := |s.workers|;
      x := Worker(k, Recovery, Finding, false);
      Advance(Protocol.Recover(k));
    }

    method AnyDbReply() returns (reply: DbReply)
      ensures quiet ==> reply == Executed
    {
      reply := *;
      if quiet { reply := Executed; }
    }

    method Save(me: nat, ghost x: Worker, o: Order) returns (err: Error)
      requires Valid() && Runs(me, x) && x.pc == Inserting(o.Data())
      modifies this
      ensures Valid() && old(trace) <= trace && (err == Nil || err == {Port})
      ensures Runs(me, x.(pc := AfterInsert(o.Data(), err == Nil)))
      ensures quiet ==> Alongside(old(s), s, me, env)
    {
      Interfere(me);
      var reply := AnyDbReply();
      var repo := new OrderRepository(Table(s));
      err := repo.Save(o, reply);
      StatementOnTable(trace, me, reply);
      Perform(me, x, Db(reply));
      assert repo.rows == Table(s);
    }

    method SaveIfStatus(me: nat, ghost x: Worker, next: Order, expected: OrderStatus) returns (updated: bool, err: Error)
      requires Valid() && Runs(me, x) && x.pc.Writing?
      requires x.pc.next == next.Data() && x.pc.previous.status == expected
      modifies this
      ensures Valid() && old(trace) <= trace && (err == Nil || (err == {Port} && !updated))
      ensures Runs(me, x.(pc := if err != Nil then AfterWriteError(x.side, x.pc.previous, x.pc.goal)
                                else if updated then Announcing(x.pc.next, x.pc.goal)
                                else AfterConflict(x.side, x.pc.previous, x.pc.goal)))
      ensures quiet ==> Alongside(old(s), s, me, env)
    {
      Interfere(me);
      var reply := AnyDbReply();
      var repo := new OrderRepository(Table(s));
      updated, err := repo.SaveIfStatus(next, expected, reply);
      StatementOnTable(trace, me, reply);
      Perform(me, x, Db(reply));
      assert repo.rows == Table(s);
    }

    method FindByID(me: nat, ghost x: Worker, id: Id) returns (o: Order?, err: Error)
      requires Valid() && Runs(me, x) && x.id == id && (x.pc.Finding? || x.pc.Reloading?)
      modifies this
      ensures Valid() && old(trace) <= trace
      ensures o != null ==> fresh(o) && o.events == []
      ensures err == if o == null then {Port} else Nil
      ensures Runs(me, x.(pc := AfterRead(x.pc, DataOf(o))))
      ensures quiet ==> Alongside(old(s), s, me, env)
    {
      Interfere(me);
      var ok: bool := *;
      if quiet { ok := true; }
      var repo := new OrderRepository(Table(s));
      o, err := repo.FindByID(id, ok);
      TableHas(s, id);
      if o != null { RowRoundTrip(At(s, id).row.value); }
      Perform(me, x, RowRead(ok));
    }

    /** One event reaches the trace and the log. */
    method Log(me: nat, ghost x: Worker, name: string)
      requires Valid() && Runs(me, x) && x.pc.Announcing? && name == EventName(x.pc.order.status)
      modifies this
      ensures Valid() && old(trace) <= trace
      ensures Runs(me, x.(pc := AfterAnnounce(x.side, x.pc.order, x.pc.goal)))
      ensures quiet ==> Alongside(old(s), s, me, env)
    {
      Interfere(me);
      Perform(me, x, Emitted);
    }

    method Charge(me: nat, ghost x: Worker, key: Id, customerId: string, amount: int64) returns (r: ChargeReply)
      requires Valid() && Runs(me, x) && x.pc.SendingCharge?
      requires key == x.pc.order.id && customerId == x.pc.order.customerId && amount == TotalCents(x.pc.order.items)
      modifies this
      ensures Valid() && old(trace) <= trace
      ensures Runs(me, x.(pc := AfterCharge(x.pc.order, r)))
      ensures quiet ==> Alongside(old(s), s, me, env)
    {
      Interfere(me);
      Send(me, x);
      ghost var sent := s;
      Interfere(me);
      r := *;
      if quiet { r := env.reply; }
      if !ChargeTruthful(At(s, s.workers[me].id).decision, r) { r := ChargeFailed(Unclassified); }
      Perform(me, x.(pc := AwaitingCharge(x.pc.order)), ChargeReturned(r));
      if quiet { AlongsideCompose(old(s), sent, s, me, env); }
    }

    /** The request goes out; in a quiet world the provider decides about it. */
    method Send(me: nat, ghost x: Worker)
      requires Valid() && Runs(me, x) && x.pc.SendingCharge?
      modifies this
      ensures Valid() && old(trace) <= trace
      ensures Runs(me, x.(pc := AwaitingCharge(x.pc.order)))
      ensures quiet ==> Alongside(old(s), s, me, env)
    {
      ghost var before := s;
      Perform(me, x, Sent);
      var k := s.workers[me].id;
      if quiet && At(s, k).decision == Undecided && env.decision != Undecided { Advance(Decide(k, env.decision)); }
      if quiet {
        ActionsCountDown(At(before, k), x, Sent);
        assert At(s, k) == QuietCell(At(before, k), me, x, env);
      }
    }

    method LookupCharge(me: nat, ghost x: Worker, key: Id) returns (r: LookupReply)
      requires Valid() && Runs(me, x) && x.pc.LookingUp? && key == x.pc.order.id
      modifies this
      ensures Valid() && old(trace) <= trace
      ensures Runs(me, x.(pc := AfterLookup(x.pc.order, r)))
      ensures quiet ==> Alongside(old(s), s, me, env)
    {
      Interfere(me);
      r := *;
      var decision := At(s, s.workers[me].id).decision;
      if quiet {
        r := if env.lookup then Report(decision) else LookupFailed;
      } else if !LookupTruthful(decision, r) {
        r := LookupFailed;
      }
      Perform(me, x, LookupReturned(r));
    }

    method Reserve(me: nat, ghost x: Worker, key: Id, items: seq<OrderItem>) returns (err: Error)
      requires Valid() && Runs(me, x) && x.pc.Reserving? && key == x.pc.order.id && items == x.pc.order.items
      modifies this
      ensures Valid() && old(trace) <= trace && (err == Nil || err == {Port})
      ensures Runs(me, x.(pc := AfterReserve(x.side, x.pc.order, err == Nil)))
      ensures quiet ==> Alongside(old(s), s, me, env)
    {
      Interfere(me);
      var effect: bool := *;
      var ok: bool := *;
      if quiet { effect, ok := env.stock, env.stock; }
      if ok { effect := true; }
      err := if ok then Nil else {Port};
      Perform(me, x, ReserveReturned(effect, ok));
    }

    /** The listing query, over the table as it is when it runs. */
    method ListRecoverableIDs(afterID: Id, olderThan: int, limit: nat) returns (ids: seq<Id>, err: Error)
      requires Valid()
      modifies this
      ensures Valid() && old(trace) <= trace && |old(s.workers)| <= |s.workers|
      ensures err == Nil ==> ids == Page(Eligible(Table(s), olderThan), afterID, limit)
      ensures quiet ==> err == Nil && s == old(s)
    {
      Interfere(|s.workers|);
      var ok: bool := *;
      if quiet { ok := true; }
      var repo := new OrderRepository(Table(s));
      ids, err := repo.ListRecoverableIDs(afterID, olderThan, limit, ok);
    }
  }
}
