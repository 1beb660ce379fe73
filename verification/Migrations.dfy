/** Startup migrations: what one start of the sorted, checksummed loop does to the database. */
module Migrations {
  import opened Common

  datatype Script = Script(name: string, content: string)

  datatype Entry = Entry(script: Script, isDir: bool)

  /** What a database engine does with a script, and the digest of a content.  Both are arbitrary. */
  datatype Engine<!S> = Engine(apply: (S, string) -> Option<S>, checksum: string -> string, empty: S)

  /** The schema, the ledger table, and the scripts whose transaction committed, oldest first. */
  datatype Db<S> = Db(schema: S, ledger: map<string, string>, applied: seq<Script>)

  function Fresh<S>(e: Engine<S>): Db<S> { Db(e.empty, map[], []) }

  // ---------- sorted directory listings ----------

  ghost predicate NamesAscend(q: seq<Script>) {
    forall i, j :: 0 <= i < j < |q| ==> Below(q[i].name, q[j].name)
  }

  /** Inserts a script before the first one with a larger name. */
  function InsertByName(q: seq<Script>, x: Script): seq<Script> {
    if q == [] then [x]
    else if Below(x.name, q[0].name) then [x] + q
    else [q[0]] + InsertByName(q[1..], x)
  }

  function SortByName(q: seq<Script>): seq<Script> {
    if q == [] then [] else InsertByName(SortByName(q[..|q| - 1]), q[|q| - 1])
  }

  ghost predicate DistinctNames(q: seq<Script>) {
    forall i, j :: 0 <= i < j < |q| ==> q[i].name != q[j].name
  }

  lemma {:induction false} InsertKeepsElements(q: seq<Script>, x: Script)
    ensures multiset(InsertByName(q, x)) == multiset(q) + multiset{x}
    decreases |q|
  {
    if q != [] {
      assert q == [q[0]] + q[1..];
      InsertKeepsElements(q[1..], x);
    }
  }

  lemma {:induction false} InsertKeepsOrder(q: seq<Script>, x: Script)
    requires NamesAscend(q) && forall i :: 0 <= i < |q| ==> q[i].name != x.name
    ensures NamesAscend(InsertByName(q, x))
    decreases |q|
  {
    if q != [] {
      if Below(x.name, q[0].name) {
        forall j | 0 < j < |q| ensures Below(x.name, q[j].name) { BelowTransitive(x.name, q[0].name, q[j].name); }
      } else {
        BelowTotal(q[0].name, x.name);
        InsertKeepsOrder(q[1..], x);
        InsertKeepsElements(q[1..], x);
        var rest := InsertByName(q[1..], x);
        forall j | 0 <= j < |rest| ensures Below(q[0].name, rest[j].name) {
          assert rest[j] in multiset(q[1..]) + multiset{x};
          if rest[j] != x {
            var k :| 0 <= k < |q[1..]| && q[1..][k] == rest[j];
            assert q[k + 1] == rest[j];
          }
        }
      }
    }
  }

  lemma {:induction false} SortKeepsElements(q: seq<Script>)
    ensures multiset(SortByName(q)) == multiset(q)
    decreases |q|
  {
    hide InsertByName;
    if q != [] {
      var front, x := q[..|q| - 1], q[|q| - 1];
      SortKeepsElements(front);
      InsertKeepsElements(SortByName(front), x);
      assert q == front + [x];
      assert multiset(q) == multiset(front) + multiset{x};
    }
  }

  lemma {:induction false} SortSorts(q: seq<Script>)
    requires DistinctNames(q)
    ensures NamesAscend(SortByName(q))
    decreases |q|
  {
    if q != [] {
      var front, x := q[..|q| - 1], q[|q| - 1];
      var s := SortByName(front);
      SortSorts(front);
      SortKeepsElements(front);
      forall i | 0 <= i < |s| ensures s[i].name != x.name {
        assert s[i] in multiset(front);
        var j :| 0 <= j < |front| && front[j] == s[i];
        assert q[j] == front[j];
      }
      InsertKeepsOrder(s, x);
    }
  }

  lemma SameHead(a: seq<Script>, b: seq<Script>)
    requires NamesAscend(a) && NamesAscend(b) && a != [] && b != [] && a[0] in b && b[0] in a
    ensures a[0] == b[0]
  {
    var i :| 0 <= i < |b| && b[i] == a[0];
    var j :| 0 <= j < |a| && a[j] == b[0];
    if i > 0 && j > 0 { BelowAsymmetric(b[0].name, b[i].name); }
  }

  /** There is only one ascending arrangement. */
  lemma {:induction false} AscendingIsUnique(a: seq<Script>, b: seq<Script>)
    requires NamesAscend(a) && NamesAscend(b) && multiset(a) == multiset(b)
    ensures a == b
    decreases |a|
  {
    hide NamesAscend;
    assert |a| == |multiset(a)| && |b| == |multiset(b)|;
    if a != [] {
      assert a[0] == b[0] by {
        assert a[0] in multiset(b) && b[0] in multiset(a);
        SameHead(a, b);
      }
      TailElements(a);
      TailElements(b);
      TailAscends(a);
      TailAscends(b);
      AscendingIsUnique(a[1..], b[1..]);
    }
  }

  lemma TailElements(q: seq<Script>)
    requires q != []
    ensures multiset(q[1..]) == multiset(q) - multiset{q[0]} && q == [q[0]] + q[1..]
  {
    assert q == [q[0]] + q[1..];
  }

  lemma TailAscends(q: seq<Script>)
    requires NamesAscend(q) && q != []
    ensures NamesAscend(q[1..])
  {
  }

  /** Adding scripts whose names all come later extends the sorted list at its end. */
  lemma LaterNamesExtendTheEnd(list: seq<Script>, added: seq<Script>)
    requires DistinctNames(list + added)
    requires forall i, j :: 0 <= i < |list| && 0 <= j < |added| ==> Below(list[i].name, added[j].name)
    ensures SortByName(list + added) == SortByName(list) + SortByName(added)
  {
    var both := list + added;
    DistinctParts(list, added);
    SortSorts(list);
    SortSorts(added);
    SortSorts(both);
    SortKeepsElements(list);
    SortKeepsElements(added);
    SortKeepsElements(both);
    var a, b := SortByName(list), SortByName(added);
    forall i, j | 0 <= i < |a| && 0 <= j < |b| ensures Below(a[i].name, b[j].name) {
      assert a[i] in multiset(list) && b[j] in multiset(added);
      var i' :| 0 <= i' < |list| && list[i'] == a[i];
      var j' :| 0 <= j' < |added| && added[j'] == b[j];
    }
    AscendingIsUnique(SortByName(both), a + b);
  }

  lemma DistinctParts(a: seq<Script>, b: seq<Script>)
    requires DistinctNames(a + b)
    ensures DistinctNames(a) && DistinctNames(b)
  {
    forall i, j | 0 <= i < j < |a| ensures a[i].name != a[j].name { assert (a + b)[i] == a[i] && (a + b)[j] == a[j]; }
    forall i, j | 0 <= i < j < |b| ensures b[i].name != b[j].name {
      assert (a + b)[|a| + i] == b[i] && (a + b)[|a| + j] == b[j];
    }
  }

  // ---------- one script ----------

  /** How a transaction ended for its process. */
  datatype TxReply = Ok | ErrorAfterCommit | RolledBack

  /** One transaction: the script and its ledger row together, or nothing. */
  function Committed<S>(e: Engine<S>, db: Db<S>, x: Script): Option<Db<S>> {
    match e.apply(db.schema, x.content)
    case None => None
    case Some(schema) =>
      if x.name in db.ledger then None
      else Some(Db(schema, db.ledger[x.name := e.checksum(x.content)], db.applied + [x]))
  }

  predicate Recorded<S>(db: Db<S>, x: Script) { x.name in db.ledger }

  predicate Tampered<S>(e: Engine<S>, db: Db<S>, x: Script) {
    x.name in db.ledger && db.ledger[x.name] != e.checksum(x.content)
  }

  // ---------- one clean run ----------

  /** The schema after one clean application of the scripts in order. */
  function CleanSchema<S>(e: Engine<S>, scripts: seq<Script>): Option<S> {
    if scripts == [] then Some(e.empty)
    else match CleanSchema(e, scripts[..|scripts| - 1])
         case None => None
         case Some(schema) => e.apply(schema, scripts[|scripts| - 1].content)
  }

  function LedgerOf<S>(e: Engine<S>, scripts: seq<Script>): map<string, string> {
    if scripts == [] then map[]
    else LedgerOf(e, scripts[..|scripts| - 1])[scripts[|scripts| - 1].name := e.checksum(scripts[|scripts| - 1].content)]
  }

  /** The database of one clean run of the scripts on an empty one, if it gets through. */
  function CleanDb<S>(e: Engine<S>, scripts: seq<Script>): Option<Db<S>> {
    match CleanSchema(e, scripts)
    case None => None
    case Some(schema) => Some(Db(schema, LedgerOf(e, scripts), scripts))
  }

  lemma {:induction false} CleanPrefix<S>(e: Engine<S>, scripts: seq<Script>, n: nat)
    requires n <= |scripts| && CleanSchema(e, scripts).Some?
    ensures CleanSchema(e, scripts[..n]).Some?
    decreases |scripts|
  {
    if n == |scripts| {
      assert scripts[..n] == scripts;
    } else {
      CleanPrefix(e, scripts[..|scripts| - 1], n);
      assert scripts[..|scripts| - 1][..n] == scripts[..n];
    }
  }

  lemma {:induction false} LedgerNames<S>(e: Engine<S>, scripts: seq<Script>, name: string)
    ensures name in LedgerOf(e, scripts) <==> exists i :: 0 <= i < |scripts| && scripts[i].name == name
    decreases |scripts|
  {
    if scripts != [] {
      var front := scripts[..|scripts| - 1];
      LedgerNames(e, front, name);
      if exists i :: 0 <= i < |scripts| && scripts[i].name == name {
        var i :| 0 <= i < |scripts| && scripts[i].name == name;
        if i < |front| { assert front[i].name == name; }
      }
      if exists i :: 0 <= i < |front| && front[i].name == name {
        var i :| 0 <= i < |front| && front[i].name == name;
        assert scripts[i].name == name;
      }
    }
  }

  lemma {:induction false} LedgerChecksum<S>(e: Engine<S>, scripts: seq<Script>, i: nat)
    requires NamesAscend(scripts) && i < |scripts|
    ensures scripts[i].name in LedgerOf(e, scripts) && LedgerOf(e, scripts)[scripts[i].name] == e.checksum(scripts[i].content)
    decreases |scripts|
  {
    var n := |scripts| - 1;
    if i < n {
      LedgerChecksum(e, scripts[..n], i);
      assert Below(scripts[i].name, scripts[n].name);
      BelowAsymmetric(scripts[i].name, scripts[n].name);
    }
  }

  /** The database holds exactly a prefix of the sorted list: its scripts once each in order, its
      ledger rows, and the schema of one clean run. */
  ghost predicate HoldsPrefix<S>(e: Engine<S>, db: Db<S>, all: seq<Script>) {
    && db.applied <= all
    && db.ledger == LedgerOf(e, db.applied)
    && CleanSchema(e, db.applied) == Some(db.schema)
  }

  /** A script of the list is in the ledger exactly if it is below the mark, and then untampered. */
  lemma RecordedIffBelowMark<S>(e: Engine<S>, db: Db<S>, all: seq<Script>, i: nat)
    requires NamesAscend(all) && HoldsPrefix(e, db, all) && i < |all|
    ensures Recorded(db, all[i]) <==> i < |db.applied|
    ensures i < |db.applied| ==> !Tampered(e, db, all[i])
  {
    var n := |db.applied|;
    LedgerNames(e, db.applied, all[i].name);
    if i < n {
      assert db.applied[i] == all[i];
      LedgerChecksum(e, db.applied, i);
    } else if Recorded(db, all[i]) {
      var j :| 0 <= j < |db.applied| && db.applied[j].name == all[i].name;
      assert Below(all[j].name, all[i].name);
      BelowIrreflexive(all[i].name);
    }
  }

  lemma FullPrefixIsClean<S>(e: Engine<S>, db: Db<S>, all: seq<Script>)
    requires HoldsPrefix(e, db, all) && |all| <= |db.applied|
    ensures Some(db) == CleanDb(e, all)
  {
    assert db.applied == all;
  }

  lemma CommitKeepsPrefix<S>(e: Engine<S>, db: Db<S>, all: seq<Script>)
    requires HoldsPrefix(e, db, all) && |db.applied| < |all| && Committed(e, db, all[|db.applied|]).Some?
    ensures HoldsPrefix(e, Committed(e, db, all[|db.applied|]).value, all)
    ensures Committed(e, db, all[|db.applied|]).value.applied == all[..|db.applied| + 1]
  {
    var db' := Committed(e, db, all[|db.applied|]).value;
    assert db'.applied[..|db.applied|] == db.applied;
    assert db.applied == all[..|db.applied|];
  }

  // ---------- the order of application ----------

  ghost predicate Holds(q: seq<Script>, name: string) { exists i :: 0 <= i < |q| && q[i].name == name }

  /** What undisturbed starts apply: scripts already applied are skipped, the others appended. */
  ghost function Resume(applied: seq<Script>, scripts: seq<Script>): seq<Script> {
    if scripts == [] then applied
    else
      var before := Resume(applied, scripts[..|scripts| - 1]);
      if Holds(before, scripts[|scripts| - 1].name) then before else before + [scripts[|scripts| - 1]]
  }

  lemma {:induction false} ResumeKeepsApplied(applied: seq<Script>, scripts: seq<Script>)
    ensures applied <= Resume(applied, scripts)
    decreases |scripts|
  {
    if scripts != [] { ResumeKeepsApplied(applied, scripts[..|scripts| - 1]); }
  }

  lemma LastIsNew(scripts: seq<Script>)
    requires NamesAscend(scripts) && scripts != []
    ensures !Holds(scripts[..|scripts| - 1], scripts[|scripts| - 1].name)
  {
    var n := |scripts| - 1;
    forall i | 0 <= i < n ensures scripts[..n][i].name != scripts[n].name {
      BelowAsymmetric(scripts[i].name, scripts[n].name);
    }
  }

  lemma {:induction false} ResumeOnPrefix(applied: seq<Script>, scripts: seq<Script>)
    requires NamesAscend(scripts) && (applied <= scripts || scripts <= applied) && NamesAscend(applied)
    ensures Resume(applied, scripts) == if |scripts| <= |applied| then applied else scripts
    decreases |scripts|
  {
    hide NamesAscend;
    if scripts != [] {
      var n := |scripts| - 1;
      FrontAscends(scripts);
      ResumeOnPrefix(applied, scripts[..n]);
      if |scripts| <= |applied| {
        assert applied[n] == scripts[n];
      } else {
        assert scripts == scripts[..n] + [scripts[n]];
        LastIsNew(scripts);
      }
    }
  }

  lemma FrontAscends(scripts: seq<Script>)
    requires NamesAscend(scripts) && scripts != []
    ensures NamesAscend(scripts[..|scripts| - 1])
  {
  }

  /** Upgrading from one sorted list to another applies the scripts in the new list's order if and
      only if the new list extends the old one at its end. */
  lemma UpgradeInOrderIffExtendedAtEnd(older: seq<Script>, newer: seq<Script>)
    requires NamesAscend(older) && NamesAscend(newer)
    ensures Resume(Resume([], older), newer) == newer <==> older <= newer
  {
    ResumeOnPrefix([], older);
    ResumeKeepsApplied(older, newer);
    if older <= newer { ResumeOnPrefix(older, newer); }
  }

  // ---------- the loop ----------

  datatype Outcome = Done | ChecksumChanged(script: Script) | Failed

  /** The database after the first n scripts of a list: recorded ones are skipped, the others
      committed; nothing if a recorded one was changed or one cannot be applied. */
  function Through<S>(e: Engine<S>, db: Db<S>, scripts: seq<Script>, n: nat): Option<Db<S>>
    requires n <= |scripts|
  {
    if n == 0 then Some(db)
    else match Through(e, db, scripts, n - 1)
         case None => None
         case Some(d) =>
           if Tampered(e, d, scripts[n - 1]) then None
           else if Recorded(d, scripts[n - 1]) then Some(d)
           else Committed(e, d, scripts[n - 1])
  }

  /** Ledger rows are only added, and those of the list are untampered. */
  lemma {:induction false} ThroughKeepsLedger<S>(e: Engine<S>, db: Db<S>, scripts: seq<Script>, n: nat)
    requires n <= |scripts| && Through(e, db, scripts, n).Some?
    ensures var d := Through(e, db, scripts, n).value;
            && (forall name :: name in db.ledger ==> name in d.ledger && d.ledger[name] == db.ledger[name])
            && (forall i :: 0 <= i < n ==> Recorded(d, scripts[i]) && !Tampered(e, d, scripts[i]))
            && db.applied <= d.applied
  {
    if n > 0 { ThroughKeepsLedger(e, db, scripts, n - 1); }
  }

  /** On a database holding a prefix of a list that this one belongs to, the scripts missing are
      applied and nothing else happens. */
  lemma {:induction false} ThroughKeepsPrefix<S>(e: Engine<S>, db: Db<S>, scripts: seq<Script>, n: nat, all: seq<Script>)
    requires n <= |scripts| && scripts <= all && NamesAscend(all) && HoldsPrefix(e, db, all)
    requires Through(e, db, scripts, n).Some?
    ensures var d := Through(e, db, scripts, n).value;
            && HoldsPrefix(e, d, all)
            && (if n <= |db.applied| then d == db else d.applied == scripts[..n])
  {
    hide NamesAscend, LedgerOf, CleanSchema, Tampered, Recorded, Committed;
    if n > 0 {
      ThroughKeepsPrefix(e, db, scripts, n - 1, all);
      var d := Through(e, db, scripts, n - 1).value;
      assert scripts[n - 1] == all[n - 1];
      RecordedIffBelowMark(e, d, all, n - 1);
      if n > |db.applied| {
        CommitKeepsPrefix(e, d, all);
        assert all[..n] == scripts[..n];
      }
    }
  }

  /** Wherever earlier starts left off, the loop gets through a list if and only if the list runs
      cleanly on an empty database. */
  lemma {:induction false} ThroughIffClean<S>(e: Engine<S>, db: Db<S>, scripts: seq<Script>, n: nat, all: seq<Script>)
    requires n <= |scripts| && scripts <= all && NamesAscend(all) && HoldsPrefix(e, db, all)
    ensures Through(e, db, scripts, n).Some? <==> CleanSchema(e, scripts[..n]).Some?
  {
    hide NamesAscend, LedgerOf;
    if n > 0 {
      ThroughIffClean(e, db, scripts, n - 1, all);
      assert scripts[..n][..n - 1] == scripts[..n - 1] && scripts[n - 1] == all[n - 1];
      if Through(e, db, scripts, n - 1).Some? {
        var d := Through(e, db, scripts, n - 1).value;
        ThroughKeepsPrefix(e, db, scripts, n - 1, all);
        RecordedIffBelowMark(e, d, all, n - 1);
        if n <= |db.applied| {
          assert scripts[..n] == db.applied[..n];
          CleanPrefix(e, db.applied, n);
        } else {
          assert d.applied == scripts[..n - 1];
        }
      }
    }
  }

  /** Nothing gets past a script that cannot be passed. */
  lemma {:induction false} ThroughGoesOn<S>(e: Engine<S>, db: Db<S>, scripts: seq<Script>, m: nat, n: nat)
    requires m <= n <= |scripts| && Through(e, db, scripts, n).Some?
    ensures Through(e, db, scripts, m).Some?
    decreases n - m
  {
    if m < n { ThroughGoesOn(e, db, scripts, m + 1, n); }
  }

  lemma BlockedHere<S>(e: Engine<S>, db: Db<S>, scripts: seq<Script>, m: nat)
    requires m < |scripts| && Through(e, db, scripts, m).Some?
    requires var d := Through(e, db, scripts, m).value;
             Tampered(e, d, scripts[m]) || (!Recorded(d, scripts[m]) && Committed(e, d, scripts[m]).None?)
    ensures Through(e, db, scripts, |scripts|).None?
  {
    if Through(e, db, scripts, |scripts|).Some? { ThroughGoesOn(e, db, scripts, m + 1, |scripts|); }
  }

  /** The loop applies scripts in the order that Resume describes. */
  lemma {:induction false} ThroughResumes<S>(e: Engine<S>, db: Db<S>, scripts: seq<Script>, n: nat)
    requires n <= |scripts| && db.ledger == LedgerOf(e, db.applied) && Through(e, db, scripts, n).Some?
    ensures var d := Through(e, db, scripts, n).value;
            d.ledger == LedgerOf(e, d.applied) && d.applied == Resume(db.applied, scripts[..n])
  {
    if n > 0 {
      ThroughResumes(e, db, scripts, n - 1);
      var d := Through(e, db, scripts, n - 1).value;
      var x := scripts[n - 1];
      assert scripts[..n][..n - 1] == scripts[..n - 1];
      LedgerNames(e, d.applied, x.name);
      assert (d.applied + [x])[..|d.applied|] == d.applied;
    }
  }

  /** The files of a directory are its entries that are not directories. */
  lemma {:induction false} FilesAreTheEntries(entries: seq<Entry>, x: Script)
    ensures x in Files(entries) <==> Entry(x, false) in entries
    decreases |entries|
  {
    if entries != [] {
      var n := |entries| - 1;
      FilesAreTheEntries(entries[..n], x);
      assert entries == entries[..n] + [entries[n]];
    }
  }

  /** And each is listed once. */
  lemma {:induction false} FilesAreCounted(entries: seq<Entry>)
    ensures |Files(entries)| == |set i | 0 <= i < |entries| && !entries[i].isDir|
    decreases |entries|
  {
    if entries != [] {
      var n := |entries| - 1;
      var front := entries[..n];
      FilesAreCounted(front);
      var some, before := (set i | 0 <= i < |entries| && !entries[i].isDir), (set i | 0 <= i < n && !front[i].isDir);
      assert some == before + (if entries[n].isDir then {} else {n});
    }
  }

  /** Only scripts of the list are applied. */
  lemma {:induction false} ThroughAppliesOnlyListed<S>(e: Engine<S>, db: Db<S>, scripts: seq<Script>, n: nat)
    requires n <= |scripts| && Through(e, db, scripts, n).Some?
    ensures var d := Through(e, db, scripts, n).value;
            db.applied <= d.applied && forall i :: |db.applied| <= i < |d.applied| ==> d.applied[i] in scripts
  {
    if n > 0 { ThroughAppliesOnlyListed(e, db, scripts, n - 1); }
  }

  lemma SortedFilesAreTheEntries(entries: seq<Entry>, x: Script)
    ensures x in SortByName(Files(entries)) <==> Entry(x, false) in entries
  {
    hide SortByName, Files;
    FilesAreTheEntries(entries, x);
    SortKeepsElements(Files(entries));
    assert x in multiset(SortByName(Files(entries))) <==> x in multiset(Files(entries));
  }

  /** What one start, undisturbed from db0, may leave: the database after the first `done` scripts,
      all of them if it ended well; a checksum error names the next script, which really differs. */
  ghost predicate LoopResult<S>(e: Engine<S>, db0: Db<S>, scripts: seq<Script>, outcome: Outcome, done: nat, db: Db<S>) {
    && done <= |scripts| && Through(e, db0, scripts, done) == Some(db)
    && (outcome == Done ==> done == |scripts|)
    && (outcome.ChecksumChanged? ==> done < |scripts| && outcome.script == scripts[done] && Tampered(e, db, outcome.script))
  }

  lemma WholeListIsApplied(before: seq<Script>, scripts: seq<Script>, after: seq<Script>, all: seq<Script>)
    requires before <= all && scripts <= all
    requires if |scripts| <= |before| then after == before else after == scripts[..|scripts|]
    ensures scripts <= after
  {
    assert scripts == all[..|scripts|] && before == all[..|before|];
    assert scripts[..|scripts|] == scripts;
  }

  /** On a database that holds a prefix no checksum error arises and only what is missing is applied. */
  lemma ResultOnPrefix<S>(e: Engine<S>, db0: Db<S>, scripts: seq<Script>, outcome: Outcome, done: nat, db: Db<S>,
                          all: seq<Script>)
    requires LoopResult(e, db0, scripts, outcome, done, db)
    requires scripts <= all && NamesAscend(all) && HoldsPrefix(e, db0, all)
    ensures HoldsPrefix(e, db, all) && !outcome.ChecksumChanged?
    ensures outcome == Done ==> scripts <= db.applied
    ensures scripts <= db0.applied ==> db == db0
    ensures outcome == Done && scripts == all ==> Some(db) == CleanDb(e, all)
    ensures Through(e, db0, scripts, |scripts|).Some? <==> CleanSchema(e, scripts).Some?
  {
    hide NamesAscend, LedgerOf, CleanSchema, Through, CleanDb;
    ThroughKeepsPrefix(e, db0, scripts, done, all);
    if outcome == Done { WholeListIsApplied(db0.applied, scripts, db.applied, all); }
    ThroughIffClean(e, db0, scripts, |scripts|, all);
    assert scripts[..|scripts|] == scripts;
    if outcome.ChecksumChanged? {
      assert scripts[done] == all[done];
      RecordedIffBelowMark(e, db, all, done);
    }
    if outcome == Done && scripts == all { FullPrefixIsClean(e, db, all); }
  }

  class Connection<S> {
    const engine: Engine<S>
    var db: Db<S>

    constructor (engine: Engine<S>)
      ensures this.engine == engine && db == Fresh(engine)
    {
      this.engine := engine;
      db := Fresh(engine);
    }

    /** One process's critical section.  Unless the connection is reliable any statement may fail, and
        a commit may take effect and still be reported as an error; a script that the engine cannot
        apply fails on any connection. */
    method Migrate(entries: seq<Entry>, reliable: bool) returns (outcome: Outcome, ghost done: nat)
      modifies `db
      ensures LoopResult(engine, old(db), SortByName(Files(entries)), outcome, done, db)
      ensures reliable && outcome == Failed ==>
                && done < |SortByName(Files(entries))| && !Recorded(db, SortByName(Files(entries))[done])
                && Committed(engine, db, SortByName(Files(entries))[done]).None?
    {
      hide SortByName, Files, Committed;
      var files := ReadFiles(entries);
      var scripts := SortByName(files);
      done := 0;
      var i := 0;
      while i < |scripts|
        invariant 0 <= i == done <= |scripts|
        invariant Through(engine, old(db), scripts, i) == Some(db)
      {
        var x := scripts[i];
        var readFails: bool := *;
        if readFails && !reliable { return Failed, done; }
        if x.name in db.ledger {
          if db.ledger[x.name] != engine.checksum(x.content) { return ChecksumChanged(x), done; }
        } else {
          var reply: TxReply := *;
          if reliable { reply := Ok; }
          var next := Committed(engine, db, x);
          if reply == RolledBack || next.None? { return Failed, done; }
          db := next.value;
          if reply == ErrorAfterCommit { return Failed, done + 1; }
        }
        i := i + 1;
        done := i;
      }
      outcome := Done;
    }

    /** A start that ended well has its whole list recorded unchanged; one that met a changed script
        says so only when the ledger row was changed before it began. */
    method MigrateAndCheck(entries: seq<Entry>, reliable: bool, ghost all: seq<Script>) returns (outcome: Outcome)
      modifies `db
      ensures old(db.applied) <= db.applied
      ensures forall i :: |old(db.applied)| <= i < |db.applied| ==> Entry(db.applied[i], false) in entries
      ensures outcome == Done ==>
                forall x :: Entry(x, false) in entries ==>
                  x.name in db.ledger && db.ledger[x.name] == engine.checksum(x.content)
      ensures outcome.ChecksumChanged? ==>
                var x := outcome.script;
                && Entry(x, false) in entries && x.name in db.ledger && db.ledger[x.name] != engine.checksum(x.content)
      ensures SortByName(Files(entries)) <= all && NamesAscend(all) && HoldsPrefix(engine, old(db), all) ==>
                && HoldsPrefix(engine, db, all) && !outcome.ChecksumChanged?
                && (outcome == Done ==> SortByName(Files(entries)) <= db.applied)
                && (SortByName(Files(entries)) <= old(db.applied) ==> db == old(db))
                && (outcome == Done && SortByName(Files(entries)) == all ==> Some(db) == CleanDb(engine, all))
                && (reliable ==> (outcome == Done <==> CleanSchema(engine, SortByName(Files(entries))).Some?))
      ensures reliable ==>
                (outcome == Done <==>
                   Through(engine, old(db), SortByName(Files(entries)), |SortByName(Files(entries))|).Some?)
    {
      hide SortByName, Files;
      ghost var done;
      ghost var before := db;
      ghost var scripts := SortByName(Files(entries));
      outcome, done := Migrate(entries, reliable);
      ThroughKeepsLedger(engine, before, scripts, done);
      ThroughAppliesOnlyListed(engine, before, scripts, done);
      forall x: Script ensures x in scripts <==> Entry(x, false) in entries { SortedFilesAreTheEntries(entries, x); }
      if reliable && outcome != Done { BlockedHere(engine, before, scripts, done); }
      if scripts <= all && NamesAscend(all) && HoldsPrefix(engine, before, all) {
        ResultOnPrefix(engine, before, scripts, outcome, done, db, all);
      }
    }

    /** Skips directories, keeping the files in listing order. */
    method ReadFiles(entries: seq<Entry>) returns (files: seq<Script>)
      ensures files == Files(entries)
    {
      files := [];
      for i := 0 to |entries|
        invariant files == Files(entries[..i])
      {
        assert entries[..i + 1][..i] == entries[..i];
        if !entries[i].isDir { files := files + [entries[i].script]; }
      }
      assert entries[..|entries|] == entries;
    }
  }

  function Files(entries: seq<Entry>): seq<Script> {
    if entries == [] then []
    else
      var front, last := Files(entries[..|entries| - 1]), entries[|entries| - 1];
      if last.isDir then front else front + [last.script]
  }
}
