/** The orders table: rows keyed by primary key, with the statements the service runs on it. */
module Orders {
  import opened Common
  import opened Domain

  type Id = string

  /** A stored row; the payment reference column is nullable. */
  datatype Row = Row(id: Id, customerId: string, items: seq<OrderItem>, status: OrderStatus,
                     createdAt: int, paymentReference: Option<string>)

  function NullableString(value: string): Option<string> {
    if value == "" then None else Some(value)
  }

  function ToRow(o: OrderData): Row {
    Row(o.id, o.customerId, o.items, o.status, o.createdAt, NullableString(o.paymentReference))
  }

  function FromRow(r: Row): OrderData {
    OrderData(r.id, r.customerId, r.items, r.status, r.createdAt,
              if r.paymentReference.Some? then r.paymentReference.value else "")
  }

  lemma RowRoundTrip(o: OrderData)
    ensures FromRow(ToRow(o)) == o
  {
  }

  /** How a database statement ended for its caller: executed; reported as an error although it was
      executed, was not, or is still to be executed. */
  datatype DbReply = Executed | ErrorAfter | ErrorBefore | ErrorMeanwhile

  predicate TakesEffect(reply: DbReply) { reply == Executed || reply == ErrorAfter }

  // ---------- reads as functions of the table ----------

  predicate Recoverable(s: OrderStatus) {
    s == Pending || s == PaymentUnknown || s == Paid || s == FulfillmentPending
  }

  /** The rows a recovery scan may return: the WHERE clause without the cursor. */
  function Eligible(rows: map<Id, Row>, olderThan: int): set<Id> {
    set k | k in rows && rows[k].createdAt <= olderThan && Recoverable(rows[k].status)
  }

  /** The rows that the service has still to bring to an end. */
  function Unfinished(rows: map<Id, Row>): set<Id> {
    set k | k in rows && !Terminal(rows[k].status)
  }

  /** The statuses that the queries list are exactly those that are not terminal. */
  lemma RecoverableIffNotTerminal(s: OrderStatus)
    ensures Recoverable(s) <==> !Terminal(s)
    ensures Terminal(s) <==> s == Completed || s == Failed
  {
  }

  /** A scan may return exactly the rows that are unfinished and old enough. */
  lemma EligibleIffUnfinishedAndOld(rows: map<Id, Row>, olderThan: int)
    ensures Eligible(rows, olderThan) == set k | k in rows && k in Unfinished(rows) && rows[k].createdAt <= olderThan
  {
    forall k | k in rows ensures k in Eligible(rows, olderThan) <==> k in Unfinished(rows) && rows[k].createdAt <= olderThan {
      RecoverableIffNotTerminal(rows[k].status);
    }
  }

  ghost predicate IsLeast(k: Id, ids: set<Id>) {
    k in ids && forall j :: j in ids ==> j == k || Below(k, j)
  }

  lemma {:induction false} LeastExists(ids: set<Id>)
    requires ids != {}
    ensures exists k :: IsLeast(k, ids)
    decreases |ids|
  {
    var x :| x in ids;
    var rest := ids - {x};
    if rest == {} {
      assert ids == {x};
      assert IsLeast(x, ids);
    } else {
      LeastExists(rest);
      var m :| IsLeast(m, rest);
      BelowTotal(x, m);
      if Below(x, m) {
        forall j | j in ids ensures j == x || Below(x, j) {
          if j != x && j != m { BelowTransitive(x, m, j); }
        }
        assert IsLeast(x, ids);
      } else {
        assert IsLeast(m, ids);
      }
    }
  }

  ghost function Least(ids: set<Id>): (k: Id)
    requires ids != {}
    ensures IsLeast(k, ids)
  {
    LeastExists(ids);
    var k :| IsLeast(k, ids);
    k
  }

  lemma LeastUnique(ids: set<Id>, j: Id, k: Id)
    requires IsLeast(j, ids) && IsLeast(k, ids)
    ensures j == k
  {
    if j != k { BelowAsymmetric(j, k); }
  }

  ghost function After(ids: set<Id>, cursor: Id): set<Id> {
    set k | k in ids && Below(cursor, k)
  }

  /** `WHERE id > cursor ORDER BY id LIMIT limit` over the given candidates. */
  ghost function Page(ids: set<Id>, cursor: Id, limit: nat): seq<Id>
    decreases limit
  {
    if limit == 0 || After(ids, cursor) == {} then []
    else var k := Least(After(ids, cursor)); [k] + Page(ids, k, limit - 1)
  }

  /** Where the cursor stands after visiting a page. */
  function CursorAfter(cursor: Id, page: seq<Id>): Id {
    if page == [] then cursor else page[|page| - 1]
  }

  /** A page is increasing, drawn from the candidates beyond the cursor, and skips none of them:
      every candidate beyond the cursor is on it unless the page is full and ends before. */
  lemma {:induction false} PageIsNextCandidates(ids: set<Id>, cursor: Id, limit: nat)
    ensures var p := Page(ids, cursor, limit);
            && |p| <= limit && Ascending(p)
            && (forall i :: 0 <= i < |p| ==> p[i] in ids && Below(cursor, p[i]))
            && (forall k :: k in After(ids, cursor) ==> k in p || (|p| == limit && Below(CursorAfter(cursor, p), k)))
    decreases limit
  {
    if limit != 0 && After(ids, cursor) != {} {
      var k := Least(After(ids, cursor));
      PageIsNextCandidates(ids, k, limit - 1);
      var rest := Page(ids, k, limit - 1);
      var p := [k] + rest;
      assert p == Page(ids, cursor, limit);
      forall i | 0 <= i < |p| ensures p[i] in ids && Below(cursor, p[i]) {
        if i > 0 { BelowTransitive(cursor, k, rest[i - 1]); }
      }
      forall j | j in After(ids, cursor)
        ensures j in p || (|p| == limit && Below(CursorAfter(cursor, p), j))
      {
        if j != k { assert j in After(ids, k); }
      }
    }
  }

  /** An empty page means nothing is left beyond the cursor. */
  lemma EmptyPageMeansNoneLeft(ids: set<Id>, cursor: Id, limit: nat)
    requires limit > 0 && Page(ids, cursor, limit) == []
    ensures After(ids, cursor) == {}
  {
  }

  /** All pages from the cursor on, until one is empty. */
  ghost function AllPages(ids: set<Id>, cursor: Id, limit: nat): seq<Id>
    requires limit > 0
    decreases |After(ids, cursor)|
  {
    var p := Page(ids, cursor, limit);
    if p == [] then []
    else
      CursorAdvances(ids, cursor, limit);
      p + AllPages(ids, CursorAfter(cursor, p), limit)
  }

  lemma CursorAdvances(ids: set<Id>, cursor: Id, limit: nat)
    requires Page(ids, cursor, limit) != []
    ensures var c := CursorAfter(cursor, Page(ids, cursor, limit));
            Below(cursor, c) && After(ids, c) < After(ids, cursor) && |After(ids, c)| < |After(ids, cursor)|
  {
    PageIsNextCandidates(ids, cursor, limit);
    var p := Page(ids, cursor, limit);
    var c := CursorAfter(cursor, p);
    assert p[|p| - 1] == c;
    forall k | k in After(ids, c) ensures k in After(ids, cursor) { BelowTransitive(cursor, c, k); }
    BelowIrreflexive(c);
    assert c in After(ids, cursor) && c !in After(ids, c);
    SmallerSet(After(ids, c), After(ids, cursor));
  }

  lemma SmallerSet<T>(a: set<T>, b: set<T>)
    requires a < b
    ensures |a| < |b|
  {
    var d := b - a;
    assert b == a + d && d != {};
    var x :| x in d;
    assert |d| >= 1 by { assert d == {x} + (d - {x}); }
    assert |a + d| == |a| + |d|;
  }

  lemma {:induction false} AllPagesListEachOnce(ids: set<Id>, cursor: Id, limit: nat)
    requires limit > 0
    ensures var q := AllPages(ids, cursor, limit);
            Ascending(q) && (set k | k in q) == After(ids, cursor) && |q| == |After(ids, cursor)|
    decreases |After(ids, cursor)|
  {
    var p := Page(ids, cursor, limit);
    PageIsNextCandidates(ids, cursor, limit);
    if p == [] {
      assert After(ids, cursor) == {};
    } else {
      var c := CursorAfter(cursor, p);
      CursorAdvances(ids, cursor, limit);
      AllPagesListEachOnce(ids, c, limit);
      var rest := AllPages(ids, c, limit);
      var q := p + rest;
      assert q == AllPages(ids, cursor, limit);
      forall j | j in rest ensures j in After(ids, c) { assert j in (set k | k in rest); }
      forall i, j | 0 <= i < j < |q| ensures Below(q[i], q[j]) {
        if i < |p| <= j {
          assert q[j] in rest && Below(c, q[j]);
          if i < |p| - 1 { BelowTransitive(q[i], c, q[j]); }
        } else if |p| <= i {
          assert Below(rest[i - |p|], rest[j - |p|]);
        }
      }
      forall k | k in After(ids, cursor) ensures k in q {
        if k !in p { assert k in After(ids, c); assert k in (set j | j in rest); }
      }
      forall k | k in q ensures k in After(ids, cursor) {
        if k in p { } else { assert k in After(ids, c); BelowTransitive(cursor, c, k); }
      }
      assert (set k | k in q) == After(ids, cursor);
      AscendingHasNoRepeats(q);
    }
  }

  lemma {:induction false} AscendingHasNoRepeats(q: seq<Id>)
    requires Ascending(q)
    ensures |set k | k in q| == |q|
    decreases |q|
  {
    if q != [] {
      var front, last := q[..|q| - 1], q[|q| - 1];
      AscendingHasNoRepeats(front);
      if last in front {
        BelowIrreflexive(last);
      }
      assert (set k | k in q) == (set k | k in front) + {last};
    }
  }

  /** On an unchanged table whose rows are all old enough, paging from the empty cursor visits each
      unfinished row exactly once in increasing order, as many as CountPending reports. */
  lemma PagingAgreesWithCounting(rows: map<Id, Row>, olderThan: int, limit: nat)
    requires limit > 0 && "" !in rows
    requires forall k :: k in rows ==> rows[k].createdAt <= olderThan
    ensures var q, unfinished := AllPages(Eligible(rows, olderThan), "", limit),
                                 set k | k in rows && rows[k].status != Completed && rows[k].status != Failed;
            Ascending(q) && (set k | k in q) == unfinished == Unfinished(rows) && |q| == |unfinished|
  {
    var ids := Eligible(rows, olderThan);
    AllPagesListEachOnce(ids, "", limit);
    EligibleIffUnfinishedAndOld(rows, olderThan);
    assert ids == Unfinished(rows);
    forall k | k in ids ensures Below("", k) { }
    assert After(ids, "") == ids;
  }

  // ---------- writes as functions of the table ----------

  function Insert(rows: map<Id, Row>, o: OrderData): map<Id, Row> {
    if o.id in rows then rows else rows[o.id := ToRow(o)]
  }

  predicate Matches(rows: map<Id, Row>, id: Id, expected: OrderStatus) {
    id in rows && rows[id].status == expected
  }

  /** Only the status and reference columns of one row are written, and only if its status matches. */
  function Update(rows: map<Id, Row>, o: OrderData, expected: OrderStatus): map<Id, Row> {
    if Matches(rows, o.id, expected)
    then rows[o.id := rows[o.id].(status := o.status, paymentReference := NullableString(o.paymentReference))]
    else rows
  }

  lemma OneMoreSeen(wanted: set<Id>, unseen: set<Id>, k: Id)
    requires k in unseen
    ensures |wanted - (unseen - {k})| == |wanted - unseen| + (if k in wanted then 1 else 0)
  {
    assert wanted - (unseen - {k}) == (wanted - unseen) + (if k in wanted then {k} else {});
  }

  class OrderRepository {
    var rows: map<Id, Row>

    constructor (initial: map<Id, Row>)
      ensures rows == initial
    {
      rows := initial;
    }

    /** INSERT; the reply says how the driver ended the statement. */
    method Save(o: Order, reply: DbReply) returns (err: Error)
      modifies this
      ensures rows == if TakesEffect(reply) then Insert(old(rows), o.Data()) else old(rows)
      ensures err == if reply == Executed && o.id !in old(rows) then Nil else {Port}
    {
      if TakesEffect(reply) && o.id !in rows {
        rows := rows[o.id := ToRow(o.Data())];
        if reply == Executed { return Nil; }
      }
      err := {Port};
    }

    /** The conditional UPDATE; whether a row was affected is known only if no error was reported. */
    method SaveIfStatus(o: Order, expected: OrderStatus, reply: DbReply) returns (updated: bool, err: Error)
      modifies this
      ensures rows == if TakesEffect(reply) then Update(old(rows), o.Data(), expected) else old(rows)
      ensures err == if reply == Executed then Nil else {Port}
      ensures updated == (err == Nil && Matches(old(rows), o.id, expected))
    {
      updated := o.id in rows && rows[o.id].status == expected;
      if TakesEffect(reply) && updated {
        rows := rows[o.id := rows[o.id].(status := o.status, paymentReference := NullableString(o.paymentReference))];
      }
      if reply != Executed { return false, {Port}; }
      err := Nil;
    }

    /** The query, the scan or the decoding of a row may fail. */
    method FindByID(id: Id, ok: bool) returns (o: Order?, err: Error)
      ensures (o != null) == (ok && id in rows) && err == if o == null then {Port} else Nil
      ensures o != null ==> fresh(o) && o.Data() == FromRow(rows[id]) && o.events == []
    {
      if !ok || id !in rows { return null, {Port}; }
      o := new Order.Of(FromRow(rows[id]), []);
      err := Nil;
    }

    /** The least eligible ID beyond the cursor: one step of the database's ordered scan. */
    method NextRow(cursor: Id, olderThan: int) returns (next: Option<Id>)
      ensures next.None? <==> After(Eligible(rows, olderThan), cursor) == {}
      ensures next.Some? ==> IsLeast(next.value, After(Eligible(rows, olderThan), cursor))
    {
      next := None;
      ghost var candidates := After(Eligible(rows, olderThan), cursor);
      var unseen := rows.Keys;
      while unseen != {}
        invariant unseen <= rows.Keys
        invariant next.None? ==> candidates <= unseen
        invariant next.Some? ==> IsLeast(next.value, candidates - unseen)
        decreases unseen
      {
        var k :| k in unseen;
        if rows[k].createdAt <= olderThan && Recoverable(rows[k].status) && Below(cursor, k) {
          if next.None? || Below(k, next.value) {
            if next.Some? {
              forall j | j in candidates - unseen ensures Below(k, j) {
                if j != next.value { BelowTransitive(k, next.value, j); }
              }
            }
            next := Some(k);
          } else {
            BelowTotal(next.value, k);
          }
          assert k in candidates;
        }
        unseen := unseen - {k};
      }
      assert candidates - unseen == candidates;
    }

    /** The query or the reading of a row may fail; no ID is returned then. */
    method ListRecoverableIDs(afterID: Id, olderThan: int, limit: nat, ok: bool) returns (ids: seq<Id>, err: Error)
      ensures err == if ok then Nil else {Port}
      ensures ids == if ok then Page(Eligible(rows, olderThan), afterID, limit) else []
    {
      ids, err := [], if ok then Nil else {Port};
      if !ok { return; }
      var cursor := afterID;
      ghost var candidates := Eligible(rows, olderThan);
      while |ids| < limit
        invariant |ids| <= limit
        invariant Page(candidates, afterID, limit) == ids + Page(candidates, cursor, limit - |ids|)
        decreases limit - |ids|
      {
        var id := NextRow(cursor, olderThan);
        if id.None? { return; }
        LeastUnique(After(candidates, cursor), id.value, Least(After(candidates, cursor)));
        ids := ids + [id.value];
        cursor := id.value;
      }
    }

    method CountPending(ok: bool) returns (count: nat, err: Error)
      ensures err == if ok then Nil else {Port}
      ensures count == if ok then |Unfinished(rows)| else 0
    {
      count, err := 0, if ok then Nil else {Port};
      if !ok { return; }
      var unseen := rows.Keys;
      while unseen != {}
        invariant unseen <= rows.Keys && count == |Unfinished(rows) - unseen|
        decreases unseen
      {
        var k :| k in unseen;
        OneMoreSeen(Unfinished(rows), unseen, k);
        RecoverableIffNotTerminal(rows[k].status);
        if Recoverable(rows[k].status) { count := count + 1; }
        unseen := unseen - {k};
      }
      assert Unfinished(rows) - unseen == Unfinished(rows);
    }
  }
}
