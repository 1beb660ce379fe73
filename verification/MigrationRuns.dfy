/** Any number of processes running the startup migrations on one database, each stopped anywhere,
    serialised by an advisory lock.  A process looks a script up in the ledger and commits it later;
    only the lock keeps the two together. */
module MigrationRuns {
  import opened Common
  import opened Migrations

  /** A process that has found the next script missing from the ledger is about to apply it. */
  datatype Phase = Waiting | Checking(next: nat) | Applying(next: nat) | Ended(ok: bool)

  datatype Process = Process(scripts: seq<Script>, phase: Phase)

  datatype System<S> = System(db: Db<S>, lock: Option<nat>, processes: seq<Process>)

  datatype Move = Start(scripts: seq<Script>) | Acquire(p: nat) | Check(p: nat) | Commit(p: nat, reply: TxReply) | Stop(p: nat)

  function Initial<S>(e: Engine<S>): System<S> { System(Fresh(e), None, []) }

  /** Ending the session releases the lock. */
  function SetPhase<S>(s: System<S>, p: nat, phase: Phase): System<S>
    requires p < |s.processes|
  {
    s.(processes := s.processes[p := s.processes[p].(phase := phase)],
       lock := if phase.Ended? && s.lock == Some(p) then None else s.lock)
  }

  predicate Enabled<S>(e: Engine<S>, s: System<S>, m: Move) {
    match m
    case Start(_) => true
    case Acquire(p) => p < |s.processes| && s.processes[p].phase == Waiting && s.lock == None
    case Check(p) => p < |s.processes| && s.processes[p].phase.Checking?
    case Commit(p, reply) =>
      && p < |s.processes| && s.processes[p].phase.Applying?
      && s.processes[p].phase.next < |s.processes[p].scripts|
      && (reply != RolledBack ==> Committed(e, s.db, s.processes[p].scripts[s.processes[p].phase.next]).Some?)
    case Stop(p) => p < |s.processes| && !s.processes[p].phase.Ended?
  }

  function Apply<S>(e: Engine<S>, s: System<S>, m: Move): System<S>
    requires Enabled(e, s, m)
  {
    match m
    case Start(scripts) => s.(processes := s.processes + [Process(scripts, Waiting)])
    case Acquire(p) => SetPhase(s, p, Checking(0)).(lock := Some(p))
    case Check(p) =>
      var i, scripts := s.processes[p].phase.next, s.processes[p].scripts;
      if i >= |scripts| then SetPhase(s, p, Ended(true))
      else if Tampered(e, s.db, scripts[i]) then SetPhase(s, p, Ended(false))
      else SetPhase(s, p, if Recorded(s.db, scripts[i]) then Checking(i + 1) else Applying(i))
    case Commit(p, reply) =>
      var i, scripts := s.processes[p].phase.next, s.processes[p].scripts;
      if reply == RolledBack then SetPhase(s, p, Ended(false))
      else SetPhase(s.(db := Committed(e, s.db, scripts[i]).value), p, if reply == Ok then Checking(i + 1) else Ended(false))
    case Stop(p) => SetPhase(s, p, Ended(false))
  }

  predicate Legal<S>(e: Engine<S>, s: System<S>, run: seq<Move>)
    decreases |run|
  {
    run == [] || (Enabled(e, s, run[0]) && Legal(e, Apply(e, s, run[0]), run[1..]))
  }

  function Exec<S>(e: Engine<S>, s: System<S>, run: seq<Move>): System<S>
    requires Legal(e, s, run)
    decreases |run|
  {
    if run == [] then s else Exec(e, Apply(e, s, run[0]), run[1..])
  }

  // ---------- the lock ----------

  ghost predicate LockFits<S>(s: System<S>, p: nat)
    requires p < |s.processes|
  {
    var scripts := s.processes[p].scripts;
    match s.processes[p].phase
    case Waiting => s.lock != Some(p)
    case Checking(i) => s.lock == Some(p) && i <= |scripts|
    case Applying(i) => s.lock == Some(p) && i < |scripts| && !Recorded(s.db, scripts[i])
    case Ended(_) => s.lock != Some(p)
  }

  /** Whoever is at work holds the lock, and what it found missing is still missing. */
  ghost predicate LockInv<S>(s: System<S>) {
    && (s.lock.Some? ==> s.lock.value < |s.processes|)
    && (forall p :: 0 <= p < |s.processes| ==> LockFits(s, p))
  }

  lemma MoveKeepsLock<S>(e: Engine<S>, s: System<S>, m: Move)
    requires LockInv(s) && Enabled(e, s, m)
    ensures LockInv(Apply(e, s, m))
  {
    var s' := Apply(e, s, m);
    forall q | 0 <= q < |s'.processes| ensures LockFits(s', q) {
      if q < |s.processes| {
        assert LockFits(s, q);
        if !m.Start? { assert LockFits(s, m.p); }
      }
    }
  }

  lemma {:induction false} RunKeepsLock<S>(e: Engine<S>, s: System<S>, run: seq<Move>)
    requires LockInv(s) && Legal(e, s, run)
    ensures LockInv(Exec(e, s, run))
    decreases |run|
  {
    if run != [] {
      MoveKeepsLock(e, s, run[0]);
      RunKeepsLock(e, Apply(e, s, run[0]), run[1..]);
    }
  }

  predicate IsMoveOf(m: Move, p: nat) { !m.Start? && m.p == p }

  /** While a process holds the lock no other one changes the database. */
  lemma HolderIsAlone<S>(e: Engine<S>, run: seq<Move>, m: Move, p: nat)
    requires Legal(e, Initial(e), run) && Enabled(e, Exec(e, Initial(e), run), m)
    requires Exec(e, Initial(e), run).lock == Some(p) && !IsMoveOf(m, p)
    ensures var s := Exec(e, Initial(e), run);
            Apply(e, s, m).db == s.db && Apply(e, s, m).lock == Some(p)
  {
    RunKeepsLock(e, Initial(e), run);
    var s := Exec(e, Initial(e), run);
    OthersLeaveHolder(e, s, m, p);
  }

  lemma OthersLeaveHolder<S>(e: Engine<S>, s: System<S>, m: Move, p: nat)
    requires LockInv(s) && Enabled(e, s, m) && s.lock == Some(p) && !IsMoveOf(m, p)
    ensures var s' := Apply(e, s, m);
            s'.db == s.db && s'.lock == Some(p) && p < |s'.processes| && s'.processes[p] == s.processes[p]
  {
    if !m.Start? { assert LockFits(s, m.p); }
  }

  /** A transaction never fails on the ledger's primary key: only the script itself can fail. */
  lemma LedgerKeyIsFree<S>(e: Engine<S>, run: seq<Move>, p: nat)
    requires Legal(e, Initial(e), run)
    requires p < |Exec(e, Initial(e), run).processes| && Exec(e, Initial(e), run).processes[p].phase.Applying?
    ensures var s := Exec(e, Initial(e), run);
            && s.processes[p].phase.next < |s.processes[p].scripts|
            && var x := s.processes[p].scripts[s.processes[p].phase.next];
               !Recorded(s.db, x) && (Committed(e, s.db, x).None? <==> e.apply(s.db.schema, x.content).None?)
  {
    RunKeepsLock(e, Initial(e), run);
    assert LockFits(Exec(e, Initial(e), run), p);
  }

  // ---------- every start acts as one uninterrupted loop ----------

  /** The database is what the loop, undisturbed from db0, has after the scripts behind it. */
  ghost predicate InLoop<S>(e: Engine<S>, db0: Db<S>, s: System<S>, p: nat) {
    && p < |s.processes| && (s.processes[p].phase.Checking? || s.processes[p].phase.Applying?)
    && s.processes[p].phase.next <= |s.processes[p].scripts|
    && Through(e, db0, s.processes[p].scripts, s.processes[p].phase.next) == Some(s.db)
  }

  /** The process has ended with a result of the undisturbed loop. */
  ghost predicate EndedAsLoop<S>(e: Engine<S>, db0: Db<S>, s: System<S>, p: nat, outcome: Outcome, done: nat) {
    && p < |s.processes| && s.processes[p].phase == Ended(outcome == Done)
    && LoopResult(e, db0, s.processes[p].scripts, outcome, done, s.db)
  }

  lemma HolderFollowsLoop<S>(e: Engine<S>, db0: Db<S>, s: System<S>, m: Move, p: nat)
    requires LockInv(s) && Enabled(e, s, m) && InLoop(e, db0, s, p)
    ensures InLoop(e, db0, Apply(e, s, m), p) ||
            exists outcome, done: nat :: EndedAsLoop(e, db0, Apply(e, s, m), p, outcome, done)
  {
    assert LockFits(s, p);
    var i, scripts := s.processes[p].phase.next, s.processes[p].scripts;
    var s' := Apply(e, s, m);
    if !IsMoveOf(m, p) {
      OthersLeaveHolder(e, s, m, p);
    } else if m.Stop? || (m.Commit? && m.reply == RolledBack) {
      assert EndedAsLoop(e, db0, s', p, Failed, i);
    } else if m.Commit? && m.reply == ErrorAfterCommit {
      assert EndedAsLoop(e, db0, s', p, Failed, i + 1);
    } else if m.Check? && i >= |scripts| {
      assert EndedAsLoop(e, db0, s', p, Done, i);
    } else if m.Check? && Tampered(e, s.db, scripts[i]) {
      assert EndedAsLoop(e, db0, s', p, ChecksumChanged(scripts[i]), i);
    }
  }

  /** Some earlier moment of the run at which the process ended as the undisturbed loop does. */
  ghost predicate EndedDuring<S>(e: Engine<S>, db0: Db<S>, s: System<S>, run: seq<Move>, p: nat, n: nat) {
    && n <= |run| && Legal(e, s, run[..n])
    && exists outcome, done: nat :: EndedAsLoop(e, db0, Exec(e, s, run[..n]), p, outcome, done)
  }

  lemma EndedNow<S>(e: Engine<S>, db0: Db<S>, s: System<S>, run: seq<Move>, p: nat)
    requires exists outcome, done: nat :: EndedAsLoop(e, db0, s, p, outcome, done)
    ensures EndedDuring(e, db0, s, run, p, 0)
  {
    assert run[..0] == [] && Legal(e, s, []) && Exec(e, s, []) == s;
  }

  lemma {:induction false} EndedOneMoveLater<S>(e: Engine<S>, db0: Db<S>, s: System<S>, run: seq<Move>, p: nat, n: nat)
    requires run != [] && Enabled(e, s, run[0]) && EndedDuring(e, db0, Apply(e, s, run[0]), run[1..], p, n)
    ensures EndedDuring(e, db0, s, run, p, n + 1)
  {
    hide Apply, Enabled, EndedAsLoop;
    assert run[..n + 1][0] == run[0] && run[..n + 1][1..] == run[1..][..n];
    assert Exec(e, s, run[..n + 1]) == Exec(e, Apply(e, s, run[0]), run[1..][..n]);
  }

  lemma {:induction false} LoopUntilEnd<S>(e: Engine<S>, db0: Db<S>, s: System<S>, run: seq<Move>, p: nat)
    requires LockInv(s) && Legal(e, s, run) && InLoop(e, db0, s, p)
    ensures InLoop(e, db0, Exec(e, s, run), p) || exists n: nat :: EndedDuring(e, db0, s, run, p, n)
    decreases |run|
  {
    if run != [] {
      var s1, rest := Apply(e, s, run[0]), run[1..];
      MoveKeepsLock(e, s, run[0]);
      HolderFollowsLoop(e, db0, s, run[0], p);
      hide Apply, Enabled, LockInv, InLoop, EndedAsLoop, EndedDuring;
      if InLoop(e, db0, s1, p) {
        LoopUntilEnd(e, db0, s1, rest, p);
        if exists n: nat :: EndedDuring(e, db0, s1, rest, p, n) {
          var n: nat :| EndedDuring(e, db0, s1, rest, p, n);
          EndedOneMoveLater(e, db0, s, run, p, n);
        }
      } else {
        EndedNow(e, db0, s1, rest, p);
        EndedOneMoveLater(e, db0, s, run, p, 0);
      }
    }
  }

  /** In every interleaving, from the moment a process gets the lock the database is at each moment
      what one uninterrupted loop started then would have, until the process ends with a result
      that this loop may have. */
  lemma EveryStartActsAlone<S>(e: Engine<S>, run: seq<Move>, more: seq<Move>, p: nat)
    requires Legal(e, Initial(e), run) && Legal(e, Exec(e, Initial(e), run), more)
    requires p < |Exec(e, Initial(e), run).processes| && Exec(e, Initial(e), run).processes[p].phase == Checking(0)
    ensures var s := Exec(e, Initial(e), run);
            InLoop(e, s.db, Exec(e, s, more), p) || exists n: nat :: EndedDuring(e, s.db, s, more, p, n)
  {
    RunKeepsLock(e, Initial(e), run);
    LoopUntilEnd(e, Exec(e, Initial(e), run).db, Exec(e, Initial(e), run), more, p);
  }

  // ---------- exactly once ----------

  ghost predicate ProcessFits<S>(s: System<S>, p: nat)
    requires p < |s.processes|
  {
    match s.processes[p].phase
    case Waiting => true
    case Checking(i) => i <= |s.db.applied|
    case Applying(i) => i <= |s.db.applied|
    case Ended(ok) => ok ==> |s.processes[p].scripts| <= |s.db.applied|
  }

  ghost predicate Inv<S>(e: Engine<S>, s: System<S>, all: seq<Script>) {
    && HoldsPrefix(e, s.db, all) && LockInv(s)
    && (forall p :: 0 <= p < |s.processes| ==> s.processes[p].scripts <= all && ProcessFits(s, p))
  }

  lemma WorkKeepsPrefix<S>(e: Engine<S>, s: System<S>, m: Move, all: seq<Script>)
    requires NamesAscend(all) && Inv(e, s, all) && Enabled(e, s, m) && (m.Check? || m.Commit?)
    ensures HoldsPrefix(e, Apply(e, s, m).db, all) && s.db.applied <= Apply(e, s, m).db.applied
    ensures ProcessFits(Apply(e, s, m), m.p)
  {
    hide LedgerOf, CleanSchema, NamesAscend;
    assert LockFits(s, m.p) && ProcessFits(s, m.p);
    var i, scripts := s.processes[m.p].phase.next, s.processes[m.p].scripts;
    if i < |scripts| {
      assert scripts[i] == all[i];
      RecordedIffBelowMark(e, s.db, all, i);
      if m.Commit? && m.reply != RolledBack { CommitKeepsPrefix(e, s.db, all); }
    }
  }

  lemma MoveKeepsInv<S>(e: Engine<S>, s: System<S>, m: Move, all: seq<Script>)
    requires NamesAscend(all) && Inv(e, s, all) && Enabled(e, s, m) && (m.Start? ==> m.scripts <= all)
    ensures Inv(e, Apply(e, s, m), all)
    ensures s.db.applied <= Apply(e, s, m).db.applied
  {
    hide HoldsPrefix;
    var s' := Apply(e, s, m);
    MoveKeepsLock(e, s, m);
    if m.Check? || m.Commit? { WorkKeepsPrefix(e, s, m, all); }
    forall q | 0 <= q < |s'.processes| ensures s'.processes[q].scripts <= all && ProcessFits(s', q) {
      if q < |s.processes| { assert ProcessFits(s, q); }
    }
  }

  /** Every process runs a list that the full list extends at its sorted end. */
  ghost predicate GrowsAtEnd(run: seq<Move>, all: seq<Script>) {
    forall i :: 0 <= i < |run| && run[i].Start? ==> run[i].scripts <= all
  }

  lemma {:induction false} RunKeepsInv<S>(e: Engine<S>, s: System<S>, run: seq<Move>, all: seq<Script>)
    requires NamesAscend(all) && Inv(e, s, all) && Legal(e, s, run) && GrowsAtEnd(run, all)
    ensures Inv(e, Exec(e, s, run), all)
    ensures s.db.applied <= Exec(e, s, run).db.applied
    decreases |run|
  {
    if run != [] {
      assert run[0].Start? ==> run[0].scripts <= all;
      MoveKeepsInv(e, s, run[0], all);
      assert GrowsAtEnd(run[1..], all) by {
        forall i | 0 <= i < |run[1..]| && run[1..][i].Start? ensures run[1..][i].scripts <= all {
          assert run[1..][i] == run[i + 1];
        }
      }
      RunKeepsInv(e, Apply(e, s, run[0]), run[1..], all);
    }
  }

  /** Exactly once across restarts: after any interleaving of processes, each stopped anywhere, the
      database holds exactly a prefix of the sorted list, and whoever ended well left its whole list
      applied. */
  lemma MigrationsRunExactlyOnce<S>(e: Engine<S>, run: seq<Move>, all: seq<Script>)
    requires NamesAscend(all) && Legal(e, Initial(e), run) && GrowsAtEnd(run, all)
    ensures var s := Exec(e, Initial(e), run);
            && HoldsPrefix(e, s.db, all)
            && (forall i, j :: 0 <= i < j < |s.db.applied| ==> s.db.applied[i].name != s.db.applied[j].name)
            && (forall p :: 0 <= p < |s.processes| && s.processes[p].phase == Ended(true) ==>
                  s.processes[p].scripts <= s.db.applied)
  {
    RunKeepsInv(e, Initial(e), run, all);
    var s := Exec(e, Initial(e), run);
    forall i, j | 0 <= i < j < |s.db.applied| ensures s.db.applied[i].name != s.db.applied[j].name {
      assert Below(all[i].name, all[j].name);
      BelowAsymmetric(all[i].name, all[j].name);
    }
    forall p | 0 <= p < |s.processes| && s.processes[p].phase == Ended(true)
      ensures s.processes[p].scripts <= s.db.applied
    {
      assert ProcessFits(s, p);
    }
  }

  /** Once the full list is applied no further start changes anything. */
  lemma {:induction false} FurtherRunsChangeNothing<S>(e: Engine<S>, s: System<S>, run: seq<Move>, all: seq<Script>)
    requires NamesAscend(all) && Inv(e, s, all) && s.db.applied == all
    requires Legal(e, s, run) && GrowsAtEnd(run, all)
    ensures Exec(e, s, run).db == s.db
  {
    RunKeepsInv(e, s, run, all);
    var t := Exec(e, s, run);
    assert HoldsPrefix(e, t.db, all) && HoldsPrefix(e, s.db, all);
    assert t.db.applied == all;
  }

  // ---------- the loop as moves of a process ----------

  /** The moves of a process that goes through n scripts and nothing fails. */
  function LoopMoves<S>(e: Engine<S>, db: Db<S>, scripts: seq<Script>, p: nat, n: nat): seq<Move>
    requires n <= |scripts| && Through(e, db, scripts, n).Some?
  {
    if n == 0 then []
    else
      LoopMoves(e, db, scripts, p, n - 1)
      + if Recorded(Through(e, db, scripts, n - 1).value, scripts[n - 1]) then [Check(p)] else [Check(p), Commit(p, Ok)]
  }

  function StartMoves<S>(e: Engine<S>, db: Db<S>, scripts: seq<Script>, p: nat, n: nat, outcome: Outcome): seq<Move>
    requires n <= |scripts| && Through(e, db, scripts, n).Some?
  {
    LoopMoves(e, db, scripts, p, n) + [if outcome == Failed then Stop(p) else Check(p)]
  }

  lemma {:induction false} OneMoveMore<S>(e: Engine<S>, s: System<S>, run: seq<Move>, m: Move)
    requires Legal(e, s, run) && Enabled(e, Exec(e, s, run), m)
    ensures Legal(e, s, run + [m]) && Exec(e, s, run + [m]) == Apply(e, Exec(e, s, run), m)
    decreases |run|
  {
    if run == [] {
      assert run + [m] == [m];
    } else {
      assert (run + [m])[0] == run[0] && (run + [m])[1..] == run[1..] + [m];
      OneMoveMore(e, Apply(e, s, run[0]), run[1..], m);
    }
  }

  /** The process and the database after n scripts. */
  function AfterScripts<S>(e: Engine<S>, s: System<S>, p: nat, n: nat): System<S>
    requires p < |s.processes| && n <= |s.processes[p].scripts| && Through(e, s.db, s.processes[p].scripts, n).Some?
  {
    SetPhase(s.(db := Through(e, s.db, s.processes[p].scripts, n).value), p, Checking(n))
  }

  lemma {:induction false} LoopIsARun<S>(e: Engine<S>, s: System<S>, p: nat, n: nat)
    requires p < |s.processes| && s.processes[p].phase == Checking(0) && n <= |s.processes[p].scripts|
    requires Through(e, s.db, s.processes[p].scripts, n).Some?
    ensures Legal(e, s, LoopMoves(e, s.db, s.processes[p].scripts, p, n))
    ensures Exec(e, s, LoopMoves(e, s.db, s.processes[p].scripts, p, n)) == AfterScripts(e, s, p, n)
  {
    var scripts := s.processes[p].scripts;
    if n == 0 {
      assert s.processes == s.processes[p := s.processes[p].(phase := Checking(0))];
    } else {
      LoopIsARun(e, s, p, n - 1);
      var front, t := LoopMoves(e, s.db, scripts, p, n - 1), AfterScripts(e, s, p, n - 1);
      OneMoveMore(e, s, front, Check(p));
      if !Recorded(t.db, scripts[n - 1]) {
        OneMoveMore(e, s, front + [Check(p)], Commit(p, Ok));
        assert front + [Check(p), Commit(p, Ok)] == front + [Check(p)] + [Commit(p, Ok)];
      }
    }
  }

  /** Whatever one start did to the database, and however it ended, a process of the concurrent
      system that has the lock can do the same: the guarantees over all interleavings cover it. */
  lemma StartIsARun<S>(e: Engine<S>, s: System<S>, p: nat, outcome: Outcome, n: nat, db: Db<S>)
    requires p < |s.processes| && s.processes[p].phase == Checking(0)
    requires LoopResult(e, s.db, s.processes[p].scripts, outcome, n, db)
    ensures Legal(e, s, StartMoves(e, s.db, s.processes[p].scripts, p, n, outcome))
    ensures var t := Exec(e, s, StartMoves(e, s.db, s.processes[p].scripts, p, n, outcome));
            t.db == db && p < |t.processes| && t.processes[p] == Process(s.processes[p].scripts, Ended(outcome == Done))
  {
    LoopIsARun(e, s, p, n);
    OneMoveMore(e, s, LoopMoves(e, s.db, s.processes[p].scripts, p, n), if outcome == Failed then Stop(p) else Check(p));
  }

  // ---------- resuming ----------

  /** A start of the full list that nobody disturbs and in which nothing fails. */
  function ResumingMoves<S>(e: Engine<S>, s: System<S>, all: seq<Script>): seq<Move>
    requires Through(e, s.db, all, |all|).Some?
  {
    var p := |s.processes|;
    [Start(all), Acquire(p)] + StartMoves(e, s.db, all, p, |all|, Done)
  }

  /** From every reachable state whose lock is free, whatever stops and restarts came before: if the
      full list runs cleanly on an empty database, one undisturbed start of it ends well and leaves
      the database of that clean run; and if not, no start of it ever ends well. */
  lemma ResumingReachesCleanRun<S>(e: Engine<S>, run: seq<Move>, all: seq<Script>)
    requires NamesAscend(all) && Legal(e, Initial(e), run) && GrowsAtEnd(run, all)
    requires Exec(e, Initial(e), run).lock == None
    ensures var s := Exec(e, Initial(e), run);
            CleanDb(e, all).Some? <==> Through(e, s.db, all, |all|).Some?
    ensures CleanDb(e, all).Some? ==>
              var s := Exec(e, Initial(e), run);
              && Legal(e, s, ResumingMoves(e, s, all))
              && var t := Exec(e, s, ResumingMoves(e, s, all));
                 Some(t.db) == CleanDb(e, all)
                 && |s.processes| < |t.processes| && t.processes[|s.processes|] == Process(all, Ended(true))
    ensures CleanDb(e, all).None? ==>
              var s := Exec(e, Initial(e), run);
              forall more, p :: Legal(e, s, more) && GrowsAtEnd(more, all) && 0 <= p < |Exec(e, s, more).processes| ==>
                Exec(e, s, more).processes[p] != Process(all, Ended(true))
  {
    RunKeepsInv(e, Initial(e), run, all);
    var s := Exec(e, Initial(e), run);
    ThroughIffClean(e, s.db, all, |all|, all);
    assert all[..|all|] == all;
    if CleanDb(e, all).Some? {
      UndisturbedStartEndsWell(e, s, all);
    } else {
      forall more, p | Legal(e, s, more) && GrowsAtEnd(more, all) && 0 <= p < |Exec(e, s, more).processes|
        ensures Exec(e, s, more).processes[p] != Process(all, Ended(true))
      {
        EndingWellMeansClean(e, s, more, all, p);
      }
    }
  }

  lemma UndisturbedStartEndsWell<S>(e: Engine<S>, s: System<S>, all: seq<Script>)
    requires NamesAscend(all) && Inv(e, s, all) && s.lock == None && Through(e, s.db, all, |all|).Some?
    ensures Legal(e, s, ResumingMoves(e, s, all))
    ensures var t := Exec(e, s, ResumingMoves(e, s, all));
            Some(t.db) == CleanDb(e, all)
            && |s.processes| < |t.processes| && t.processes[|s.processes|] == Process(all, Ended(true))
  {
    hide Inv, LoopMoves, CleanDb, HoldsPrefix, NamesAscend;
    var p := |s.processes|;
    var moves := StartMoves(e, s.db, all, p, |all|, Done);
    var s1 := Apply(e, s, Start(all));
    var s2 := Apply(e, s1, Acquire(p));
    var db := Through(e, s.db, all, |all|).value;
    StartIsARun(e, s2, p, Done, |all|, db);
    GotThroughIsClean(e, s, all);
    assert ResumingMoves(e, s, all)[0] == Start(all) && ResumingMoves(e, s, all)[1..] == [Acquire(p)] + moves;
    assert ([Acquire(p)] + moves)[0] == Acquire(p) && ([Acquire(p)] + moves)[1..] == moves;
  }

  lemma GotThroughIsClean<S>(e: Engine<S>, s: System<S>, all: seq<Script>)
    requires NamesAscend(all) && Inv(e, s, all) && Through(e, s.db, all, |all|).Some?
    ensures Through(e, s.db, all, |all|) == CleanDb(e, all)
  {
    ThroughKeepsPrefix(e, s.db, all, |all|, all);
    FullPrefixIsClean(e, Through(e, s.db, all, |all|).value, all);
  }

  lemma EndingWellMeansClean<S>(e: Engine<S>, s: System<S>, more: seq<Move>, all: seq<Script>, p: nat)
    requires NamesAscend(all) && Inv(e, s, all) && Legal(e, s, more) && GrowsAtEnd(more, all)
    requires p < |Exec(e, s, more).processes|
    ensures Exec(e, s, more).processes[p] == Process(all, Ended(true)) ==> Some(Exec(e, s, more).db) == CleanDb(e, all)
  {
    RunKeepsInv(e, s, more, all);
    var t := Exec(e, s, more);
    assert ProcessFits(t, p);
    if t.processes[p] == Process(all, Ended(true)) { FullPrefixIsClean(e, t.db, all); }
  }
}
