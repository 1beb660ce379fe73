/** The reconciler's cursor: pages of a set that changes under it.  Fairness of a sweep, and the
    exact number of calls that drain a backlog. */
module Sweep {
  import opened Common
  import opened Orders

  // ---------- sweeps over a changing set ----------

  /** One answered listing query: the candidates at that moment, the cursor and the page. */
  datatype Listing = Listing(eligible: set<Id>, after: Id, page: seq<Id>)

  /** Where the last listing left the cursor; an empty page sends it back to the start. */
  function CursorOf(tr: seq<Listing>): Id {
    if tr == [] then "" else CursorAfter("", tr[|tr| - 1].page)
  }

  ghost predicate GoodTrace(tr: seq<Listing>, batch: nat) {
    && (forall i :: 0 <= i < |tr| ==> tr[i].page == Page(tr[i].eligible, tr[i].after, batch))
    && (forall i :: 0 <= i < |tr| ==> tr[i].after == CursorOf(tr[..i]))
  }

  /** The orders visited, in order. */
  function Visited(tr: seq<Listing>): seq<Id> {
    if tr == [] then [] else Visited(tr[..|tr| - 1]) + tr[|tr| - 1].page
  }

  /** Listings lo up to hi make one sweep: the cursor starts at the beginning, is not reset in
      between, and listing hi resets it. */
  ghost predicate IsSweep(tr: seq<Listing>, lo: nat, hi: nat) {
    && lo < hi < |tr| && tr[lo].after == ""
    && (forall i :: lo < i <= hi ==> tr[i].after != "")
    && tr[hi].page == []
  }

  /** The state of a sweep that began at listing lo, just before listing j: the visited IDs increase
      strictly up to the cursor, and every order that stayed eligible and lies at or below the
      cursor has been visited. */
  ghost predicate SweptTo(tr: seq<Listing>, lo: nat, j: nat)
    requires lo <= j < |tr|
  {
    var v := Visited(tr[lo..j]);
    && Ascending(v)
    && (forall i :: 0 <= i < |v| ==> v[i] == tr[j].after || Below(v[i], tr[j].after))
    && (forall k :: StaysEligible(tr, lo, j, k) && k != "" && !Below(tr[j].after, k) ==> k in v)
  }

  ghost predicate StaysEligible(tr: seq<Listing>, lo: nat, j: nat, k: Id)
    requires lo <= j <= |tr|
  {
    forall i :: lo <= i < j ==> k in tr[i].eligible
  }

  /** A page leaves out no candidate between the old and the new cursor. */
  ghost predicate Contiguous(l: Listing) {
    && Ascending(l.page)
    && (forall i :: 0 <= i < |l.page| ==> Below(l.after, l.page[i]))
    && (forall k :: k in l.eligible && Below(l.after, k) && !Below(CursorAfter("", l.page), k) ==> k in l.page)
  }

  lemma PagesAreContiguous(l: Listing, batch: nat)
    requires l.page == Page(l.eligible, l.after, batch) && l.page != []
    ensures Contiguous(l)
  {
    PageIsNextCandidates(l.eligible, l.after, batch);
    assert CursorAfter("", l.page) == CursorAfter(l.after, l.page);
    forall k | k in l.eligible && Below(l.after, k) && !Below(CursorAfter("", l.page), k) ensures k in l.page {
      assert k in After(l.eligible, l.after);
    }
  }

  lemma {:induction false} SweepSoFar(tr: seq<Listing>, lo: nat, j: nat)
    requires lo <= j < |tr| && tr[lo].after == ""
    requires forall i :: lo <= i < j ==> tr[i].page != [] && Contiguous(tr[i]) && tr[i + 1].after == CursorAfter("", tr[i].page)
    ensures SweptTo(tr, lo, j)
    decreases j
  {
    if j == lo {
      SweepStarts(tr, lo);
    } else {
      SweepSoFar(tr, lo, j - 1);
      assert tr[j - 1 + 1].after == CursorAfter("", tr[j - 1].page);
      SweepOneListing(tr, lo, j);
    }
  }

  lemma {:induction false} SweepStarts(tr: seq<Listing>, lo: nat)
    requires lo < |tr| && tr[lo].after == ""
    ensures SweptTo(tr, lo, lo)
  {
    assert tr[lo..lo] == [];
    forall k | k != "" ensures Below("", k) { }
  }

  lemma {:induction false} SweepOneListing(tr: seq<Listing>, lo: nat, j: nat)
    requires lo < j < |tr| && SweptTo(tr, lo, j - 1)
    requires tr[j - 1].page != [] && Contiguous(tr[j - 1]) && tr[j].after == CursorAfter("", tr[j - 1].page)
    ensures SweptTo(tr, lo, j)
  {
    var l := tr[j - 1];
    var v := Visited(tr[lo..j - 1]);
    assert tr[lo..j][j - 1 - lo] == l;
    assert tr[lo..j] == tr[lo..j - 1] + [l];
    assert Visited(tr[lo..j]) == v + l.page;
    PageExtendsSweep(v, l.page, l.after);
    forall k | StaysEligible(tr, lo, j, k) && k != "" && !Below(tr[j].after, k) ensures k in v + l.page {
      assert k in l.eligible && StaysEligible(tr, lo, j - 1, k);
    }
  }

  lemma CursorFollowsListing(tr: seq<Listing>, i: nat)
    requires i + 1 < |tr| && tr[i + 1].after == CursorOf(tr[..i + 1])
    ensures tr[i + 1].after == CursorAfter("", tr[i].page)
    ensures tr[i + 1].after != "" ==> tr[i].page != []
  {
    assert tr[..i + 1][i] == tr[i];
  }

  lemma {:induction false} SweepIsContiguous(tr: seq<Listing>, batch: nat, lo: nat, hi: nat, i: nat)
    requires GoodTrace(tr, batch) && IsSweep(tr, lo, hi) && lo <= i < hi
    ensures tr[i].page != [] && Contiguous(tr[i]) && tr[i + 1].after == CursorAfter("", tr[i].page)
  {
    CursorFollowsListing(tr, i);
    PagesAreContiguous(tr[i], batch);
  }

  lemma PageExtendsSweep(v: seq<Id>, page: seq<Id>, after: Id)
    requires Ascending(v) && Ascending(page) && page != []
    requires forall i :: 0 <= i < |v| ==> v[i] == after || Below(v[i], after)
    requires forall i :: 0 <= i < |page| ==> Below(after, page[i])
    ensures Ascending(v + page)
    ensures forall i :: 0 <= i < |v + page| ==>
              (v + page)[i] == page[|page| - 1] || Below((v + page)[i], page[|page| - 1])
  {
    forall i, j | 0 <= i < |v| && 0 <= j < |page| ensures Below(v[i], page[j]) {
      if v[i] != after { BelowTransitive(v[i], after, page[j]); }
    }
    forall i | 0 <= i < |v + page|
      ensures (v + page)[i] == page[|page| - 1] || Below((v + page)[i], page[|page| - 1])
    {
      if i >= |v| && i - |v| < |page| - 1 { assert Below(page[i - |v|], page[|page| - 1]); }
    }
  }

  lemma {:induction false} AscendingCountsOnce(q: seq<Id>, k: Id)
    requires Ascending(q)
    ensures multiset(q)[k] == if k in q then 1 else 0
    decreases |q|
  {
    if q != [] {
      var front, last := q[..|q| - 1], q[|q| - 1];
      assert q == front + [last];
      AscendingCountsOnce(front, k);
      if last in front { BelowIrreflexive(last); }
    }
  }

  /** Fair sweeps: between two resets of the cursor, an order that is eligible at every listing is
      visited exactly once, and no order more than once, whatever else appears, disappears or
      fails. */
  lemma {:induction false} FairSweep(tr: seq<Listing>, batch: nat, lo: nat, hi: nat, k: Id)
    requires batch > 0 && GoodTrace(tr, batch) && IsSweep(tr, lo, hi)
    ensures multiset(Visited(tr[lo..hi]))[k] <= 1
    ensures k != "" && StaysEligible(tr, lo, hi + 1, k) ==> multiset(Visited(tr[lo..hi]))[k] == 1
  {
    forall i | lo <= i < hi ensures tr[i].page != [] && Contiguous(tr[i]) && tr[i + 1].after == CursorAfter("", tr[i].page) {
      SweepIsContiguous(tr, batch, lo, hi, i);
    }
    SweepSoFar(tr, lo, hi);
    AscendingCountsOnce(Visited(tr[lo..hi]), k);
    if k != "" && StaysEligible(tr, lo, hi + 1, k) {
      assert StaysEligible(tr, lo, hi, k);
      EmptyPageMeansNoneLeft(tr[hi].eligible, tr[hi].after, batch);
      assert k in tr[hi].eligible && k !in After(tr[hi].eligible, tr[hi].after);
    }
  }

  // ---------- draining a backlog ----------

  function SetOf(q: seq<Id>): set<Id> { set k | k in q }

  /** The page one RunOnce visits when the candidates stay as they are, wrapping around once. */
  ghost function Visit(ids: set<Id>, cursor: Id, batch: nat): seq<Id> {
    var p := Page(ids, cursor, batch);
    if p == [] && cursor != "" then Page(ids, "", batch) else p
  }

  /** The orders still to be settled, and where the cursor stands. */
  datatype Backlog = Backlog(ids: set<Id>, cursor: Id)

  /** One call settles the orders it visits and leaves the cursor on the last of them. */
  ghost function OneCall(b: Backlog, batch: nat): Backlog {
    var p := Visit(b.ids, b.cursor, batch);
    Backlog(b.ids - SetOf(p), CursorAfter("", p))
  }

  ghost function AfterCalls(b: Backlog, batch: nat, calls: nat): Backlog {
    if calls == 0 then b else OneCall(AfterCalls(b, batch, calls - 1), batch)
  }

  /** The number of batches of size d that n orders fill: n / d rounded up. */
  function CeilDiv(n: nat, d: nat): nat
    requires d > 0
  {
    if n == 0 then 0 else 1 + CeilDiv(if n <= d then 0 else n - d, d)
  }

  lemma {:induction false} CeilDivRoundsUp(n: nat, d: nat)
    requires d > 0
    ensures d * (CeilDiv(n, d) - 1) < n <= d * CeilDiv(n, d) || n == CeilDiv(n, d) == 0
  {
    if n > d {
      CeilDivRoundsUp(n - d, d);
      var q := CeilDiv(n - d, d);
      assert d * (1 + q) == d + d * q && d * (1 + q - 1) == d + d * (q - 1);
    } else if n > 0 {
      assert CeilDiv(n, d) == 1 + CeilDiv(0, d) == 1;
    }
  }

  lemma {:induction false} CeilDivMonotone(a: nat, b: nat, d: nat)
    requires d > 0 && a <= b
    ensures CeilDiv(a, d) <= CeilDiv(b, d)
  {
    if a > d { CeilDivMonotone(a - d, b - d, d); }
  }

  lemma {:induction false} CeilDivAdds(a: nat, b: nat, d: nat)
    requires d > 0
    ensures CeilDiv(a, d) + CeilDiv(b, d) <= CeilDiv(a + b, d) + 1
  {
    if a > d {
      CeilDivAdds(a - d, b, d);
    } else {
      CeilDivMonotone(b, a + b, d);
      assert CeilDiv(a, d) <= 1;
    }
  }

  /** The calls needed: those for the orders beyond the cursor, then those for the others. */
  ghost function CallsNeeded(b: Backlog, batch: nat): nat
    requires batch > 0
  {
    var tail := After(b.ids, b.cursor);
    CeilDiv(|tail|, batch) + CeilDiv(|b.ids - tail|, batch)
  }

  /** A page holds as many orders as fit, all beyond the cursor, and what is left beyond the new
      cursor is the rest. */
  lemma PageTakesFromTail(ids: set<Id>, cursor: Id, batch: nat)
    requires batch > 0
    ensures var p, tail := Page(ids, cursor, batch), After(ids, cursor);
            && SetOf(p) <= tail && |p| == |SetOf(p)|
            && |SetOf(p)| == (if |tail| <= batch then |tail| else batch)
            && (p != [] ==> After(ids - SetOf(p), CursorAfter(cursor, p)) == tail - SetOf(p))
  {
    var p, tail := Page(ids, cursor, batch), After(ids, cursor);
    PageIsNextCandidates(ids, cursor, batch);
    AscendingHasNoRepeats(p);
    assert SetOf(p) == (set k | k in p);
    forall k | k in SetOf(p) ensures k in tail { }
    if |p| < batch {
      forall k | k in tail ensures k in SetOf(p) { }
      assert tail == SetOf(p);
    } else {
      SubsetSize(SetOf(p), tail);
      if |tail| <= batch { SameSizeSubset(SetOf(p), tail); }
    }
    if p != [] {
      var c := CursorAfter(cursor, p);
      forall k | k in tail - SetOf(p) ensures Below(c, k) { assert k in After(ids, cursor) && k !in p; }
      forall k | k in After(ids - SetOf(p), c) ensures k in tail { BelowTransitive(cursor, c, k); }
    }
  }

  lemma SubsetSize<T>(a: set<T>, b: set<T>)
    requires a <= b
    ensures |a| <= |b|
  {
    if a != b { SmallerSet(a, b); }
  }

  lemma SameSizeSubset<T>(a: set<T>, b: set<T>)
    requires a <= b && |a| >= |b|
    ensures a == b
  {
    if a != b { SmallerSet(a, b); }
  }

  lemma SplitSize<T>(a: set<T>, b: set<T>)
    requires b <= a
    ensures |a| == |b| + |a - b|
  {
    assert a == b + (a - b);
  }

  lemma RestSize<T>(ids: set<T>, tail: set<T>, gone: set<T>)
    requires tail <= ids && gone <= tail
    ensures (ids - gone) - (tail - gone) == ids - tail
    ensures |tail - gone| == |tail| - |gone|
  {
    SplitSize(tail, gone);
  }

  /** A call on a non-empty tail takes one batch of it and leaves the rest alone. */
  lemma VisitTail(b: Backlog, batch: nat)
    requires batch > 0 && After(b.ids, b.cursor) != {}
    ensures var b', tail := OneCall(b, batch), After(b.ids, b.cursor);
            && |b'.ids - After(b'.ids, b'.cursor)| == |b.ids - tail|
            && |After(b'.ids, b'.cursor)| == if |tail| <= batch then 0 else |tail| - batch
  {
    var tail := After(b.ids, b.cursor);
    var p := Page(b.ids, b.cursor, batch);
    PageTakesFromTail(b.ids, b.cursor, batch);
    NonEmptyHasSize(tail);
    assert p != [];
    assert Visit(b.ids, b.cursor, batch) == p && CursorAfter("", p) == CursorAfter(b.cursor, p);
    RestSize(b.ids, tail, SetOf(p));
  }

  /** A call on an empty tail wraps around and takes one batch of everything. */
  lemma VisitWrapped(b: Backlog, batch: nat)
    requires batch > 0 && "" !in b.ids && b.ids != {} && After(b.ids, b.cursor) == {}
    ensures var b' := OneCall(b, batch);
            After(b'.ids, b'.cursor) == b'.ids && |b'.ids| == if |b.ids| <= batch then 0 else |b.ids| - batch
  {
    assert After(b.ids, "") == b.ids by { forall k | k in b.ids ensures Below("", k) { } }
    var p := Page(b.ids, "", batch);
    PageTakesFromTail(b.ids, "", batch);
    NonEmptyHasSize(b.ids);
    assert p != [];
    assert Page(b.ids, b.cursor, batch) == [] && b.cursor != "";
    assert Visit(b.ids, b.cursor, batch) == p;
    RestSize(b.ids, b.ids, SetOf(p));
  }

  lemma NonEmptyHasSize<T>(a: set<T>)
    requires a != {}
    ensures |a| > 0
  {
    var x :| x in a;
    assert a == {x} + (a - {x});
  }

  /** Each call on a backlog brings its end one call nearer. */
  lemma {:induction false} CallCountsDown(b: Backlog, batch: nat)
    requires batch > 0 && "" !in b.ids && b.ids != {}
    ensures CallsNeeded(OneCall(b, batch), batch) + 1 == CallsNeeded(b, batch)
  {
    var tail := After(b.ids, b.cursor);
    if tail == {} {
      VisitWrapped(b, batch);
      NonEmptyHasSize(b.ids);
      var left := OneCall(b, batch).ids;
      assert b.ids - tail == b.ids && left - left == {};
    } else {
      VisitTail(b, batch);
      NonEmptyHasSize(tail);
    }
  }

  lemma {:induction false} NothingNeededForNothing(b: Backlog, batch: nat)
    requires batch > 0
    ensures CallsNeeded(b, batch) == 0 <==> b.ids == {}
  {
    var tail := After(b.ids, b.cursor);
    if b.ids == {} {
      assert tail == {} && b.ids - tail == {};
    } else if tail != {} {
      NonEmptyHasSize(tail);
    } else {
      assert b.ids - tail == b.ids;
      NonEmptyHasSize(b.ids);
    }
  }

  lemma {:induction false} NeededAfterCall(b: Backlog, batch: nat)
    requires batch > 0 && "" !in b.ids
    ensures "" !in OneCall(b, batch).ids
    ensures CallsNeeded(OneCall(b, batch), batch) == OneLess(CallsNeeded(b, batch))
  {
    NothingNeededForNothing(b, batch);
    if b.ids == {} { NothingNeededForNothing(OneCall(b, batch), batch); } else { CallCountsDown(b, batch); }
  }

  function OneLess(n: nat): nat { if n == 0 then 0 else n - 1 }

  lemma {:induction false} CountDown(need: nat -> nat, n: nat)
    requires forall i: nat :: need(i + 1) == OneLess(need(i))
    ensures need(n) == if need(0) <= n then 0 else need(0) - n
  {
    if n > 0 {
      CountDown(need, n - 1);
      assert need(n - 1 + 1) == OneLess(need(n - 1));
    }
  }

  lemma {:induction false} NoEmptyId(b: Backlog, batch: nat, calls: nat)
    requires "" !in b.ids
    ensures "" !in AfterCalls(b, batch, calls).ids
  {
    if calls > 0 { NoEmptyId(b, batch, calls - 1); }
  }

  lemma {:induction false} NeededAfterOneMore(b: Backlog, batch: nat, calls: nat)
    requires batch > 0 && "" !in b.ids
    ensures CallsNeeded(AfterCalls(b, batch, calls + 1), batch) == OneLess(CallsNeeded(AfterCalls(b, batch, calls), batch))
  {
    NoEmptyId(b, batch, calls);
    NeededAfterCall(AfterCalls(b, batch, calls), batch);
  }

  lemma {:induction false} NeededAfterCalls(b: Backlog, batch: nat, calls: nat)
    requires batch > 0 && "" !in b.ids
    ensures var need := CallsNeeded(b, batch);
            CallsNeeded(AfterCalls(b, batch, calls), batch) == if need <= calls then 0 else need - calls
  {
    var need := (i: nat) => CallsNeeded(AfterCalls(b, batch, i), batch);
    forall i: nat ensures need(i + 1) == OneLess(need(i)) { NeededAfterOneMore(b, batch, i); }
    CountDown(need, calls);
    assert AfterCalls(b, batch, 0) == b;
  }

  /** The backlog is drained by exactly the calls needed: after fewer something is left, after as
      many or more nothing is. */
  lemma DrainedExactlyAfterCallsNeeded(b: Backlog, batch: nat, calls: nat)
    requires batch > 0 && "" !in b.ids
    ensures AfterCalls(b, batch, calls).ids == {} <==> calls >= CallsNeeded(b, batch)
  {
    NeededAfterCalls(b, batch, calls);
    NothingNeededForNothing(AfterCalls(b, batch, calls), batch);
  }

  /** From any cursor position, ceil(n / batch) + 1 calls drain n orders. */
  lemma {:induction false} BacklogDrainBound(b: Backlog, batch: nat, calls: nat)
    requires batch > 0 && "" !in b.ids && calls >= CeilDiv(|b.ids|, batch) + 1
    ensures AfterCalls(b, batch, calls).ids == {}
  {
    DrainedExactlyAfterCallsNeeded(b, batch, calls);
    CallsNeededBound(b, batch);
  }

  lemma {:induction false} CallsNeededBound(b: Backlog, batch: nat)
    requires batch > 0
    ensures CallsNeeded(b, batch) <= CeilDiv(|b.ids|, batch) + 1
  {
    var tail := After(b.ids, b.cursor);
    SplitSize(b.ids, tail);
    CeilDivAdds(|tail|, |b.ids - tail|, batch);
  }
}
