/** For each promise that holds only under a condition, a concrete case in which it fails. */
module FailingCases {
  import opened Common
  import opened Domain
  import opened Payment
  import opened Orders
  import opened Protocol
  import opened Guarantees
  import opened Settlement
  import Sweep
  import Migrations

  const ORDER := OrderData("ord_1", "customer", [OrderItem("product", 1, 1)], Pending, 0, "")

  lemma OneMoveMore(run: seq<Move>, m: Move)
    requires Legal(INIT, run) && Enabled(Exec(INIT, run), m)
    ensures Legal(INIT, run + [m]) && Exec(INIT, run + [m]) == Apply(Exec(INIT, run), m)
  {
    RunsCompose(INIT, run, [m]);
  }

  // ---------- recovery ----------

  /** An order is inserted and announced, its charge sent and approved without a reference. */
  function UnreferencedRun(): seq<Move> {
    [Submit(ORDER), Act(0, Db(Executed)), Act(0, Emitted), Act(0, Sent), Decide("ord_1", Approved(""))]
  }

  /** One more move of the only worker. */
  lemma WorkerActs(run: seq<Move>, pc: PC, r: Reaction)
    requires Legal(INIT, run) && |Exec(INIT, run).workers| == 1
    requires Exec(INIT, run).workers[0] == Worker("ord_1", Foreground, pc, false)
    requires Possible(At(Exec(INIT, run), "ord_1"), Worker("ord_1", Foreground, pc, false), r)
    ensures Legal(INIT, run + [Act(0, r)])
    ensures var c, x, t := At(Exec(INIT, run), "ord_1"), Worker("ord_1", Foreground, pc, false), Exec(INIT, run + [Act(0, r)]);
            At(t, "ord_1") == NextCell(c, 0, x, r) && t.workers == [x.(pc := NextPC(c, x, r))]
  {
    OneMoveMore(run, Act(0, r));
  }

  lemma Submitted()
    ensures Legal(INIT, [Submit(ORDER)]) && At(Exec(INIT, [Submit(ORDER)]), "ord_1") == EMPTY_CELL
    ensures Exec(INIT, [Submit(ORDER)]).workers == [Worker("ord_1", Foreground, Inserting(ORDER), false)]
  {
    assert Exec(INIT, [Submit(ORDER)]) == Apply(INIT, Submit(ORDER));
  }

  lemma UnreferencedApprovalIsReachable()
    ensures Legal(INIT, UnreferencedRun())
    ensures var c := At(Exec(INIT, UnreferencedRun()), "ord_1");
            c.decision == Approved("") && c.row == Some(ORDER)
  {
    hide Legal, Exec;
    Submitted();
    var r1 := [Submit(ORDER)];
    WorkerActs(r1, Inserting(ORDER), Db(Executed));
    var r2 := r1 + [Act(0, Db(Executed))];
    WorkerActs(r2, Announcing(ORDER, Created), Emitted);
    var r3 := r2 + [Act(0, Emitted)];
    WorkerActs(r3, SendingCharge(ORDER), Sent);
    var r4 := r3 + [Act(0, Sent)];
    OneMoveMore(r4, Decide("ord_1", Approved("")));
    assert UnreferencedRun() == r4 + [Decide("ord_1", Approved(""))];
  }

  /** One undisturbed reconciliation leaves this approved order pending. */
  lemma RecoveryMayNotComplete()
    ensures Legal(INIT, UnreferencedRun())
    ensures var s := Exec(INIT, UnreferencedRun());
            && At(s, "ord_1").decision == Approved("")
            && Legal(INIT, UnreferencedRun() + ReconcilingMoves(s, "ord_1", WORKING))
            && At(Exec(INIT, UnreferencedRun() + ReconcilingMoves(s, "ord_1", WORKING)), "ord_1").row == Some(ORDER)
  {
    hide Legal, Exec, UnreferencedRun, ReconcilingMoves;
    UnreferencedApprovalIsReachable();
    RecoveryFromAnywhere(UnreferencedRun(), "ord_1");
  }

  // ---------- the event log ----------

  /** The insert takes effect and is reported as an error. */
  function SilentRun(): seq<Move> { [Submit(ORDER), Act(0, Db(ErrorAfter))] }

  /** All workers are done, the order is stored, and its creation is not in the log. */
  lemma EventMayBeMissing()
    ensures Legal(INIT, SilentRun())
    ensures var s := Exec(INIT, SilentRun());
            && (forall w :: 0 <= w < |s.workers| ==> Done(s.workers[w]))
            && At(s, "ord_1").row == Some(ORDER) && States(At(s, "ord_1")) == [ORDER]
            && EventName(Pending) !in At(s, "ord_1").emitted
  {
    hide Legal, Exec;
    Submitted();
    WorkerActs([Submit(ORDER)], Inserting(ORDER), Db(ErrorAfter));
    assert SilentRun() == [Submit(ORDER)] + [Act(0, Db(ErrorAfter))];
  }

  // ---------- the charged amount ----------

  /** Two pieces at the largest price: the order is accepted, and the charge is for minus two cents. */
  lemma TotalMayWrap()
    ensures var items := [OrderItem("product", 2, MAX_INT64)];
            && Validation("customer", items) == Nil
            && TotalCents(items) == -2 && MathTotal(items) == 2 * MAX_INT64
  {
    var items := [OrderItem("product", 2, MAX_INT64)];
    assert items[..0] == [];
    assert MathTotal(items) == 2 * MAX_INT64;
  }

  // ---------- upgrading ----------

  /** A script inserted before one that is already applied is applied after it. */
  lemma UpgradeMayReorder()
    ensures var a, b := Migrations.Script("a", ""), Migrations.Script("b", "");
            && Migrations.NamesAscend([b]) && Migrations.NamesAscend([a, b]) && !([b] <= [a, b])
            && Migrations.Resume(Migrations.Resume([], [b]), [a, b]) == [b, a]
  {
    var a, b := Migrations.Script("a", ""), Migrations.Script("b", "");
    assert [b][..0] == [] && [a, b][..1] == [a] && [a][..0] == [];
    assert Migrations.Resume([], [b]) == [b];
    assert !Migrations.Holds([b], "a");
    assert Migrations.Resume([b], [a]) == [b, a];
    assert [b, a][0].name == "b" && Migrations.Holds([b, a], "b");
  }

  // ---------- draining ----------

  /** Two orders that fit into one batch take two calls when the cursor stands on the first. */
  lemma DrainMayNeedOneMore()
    ensures var backlog := Sweep.Backlog({"a", "b"}, "a");
            && Sweep.CallsNeeded(backlog, 2) == Sweep.CeilDiv(|backlog.ids|, 2) + 1
            && Sweep.AfterCalls(backlog, 2, Sweep.CeilDiv(|backlog.ids|, 2)).ids != {}
  {
    var backlog := Sweep.Backlog({"a", "b"}, "a");
    var tail := After(backlog.ids, "a");
    assert Below("a", "b") && !Below("a", "a");
    assert tail == {"b"} && backlog.ids - tail == {"a"};
    assert "a" != "b" && |backlog.ids| == 2;
    assert Sweep.CeilDiv(1, 2) == 1 + Sweep.CeilDiv(0, 2) == 1 && Sweep.CeilDiv(2, 2) == 1 + Sweep.CeilDiv(0, 2) == 1;
    Sweep.DrainedExactlyAfterCallsNeeded(backlog, 2, 1);
  }
}
