/** Plaid as an append-only change log per item: what a log prefix means, what an honest page
    is, and why accumulated pages stand for the segment they cover. */
module PlaidLog {
  import opened Wrappers
  import opened Records
  import opened Ledger
  import opened Pagination

  datatype Event = Add(x: Txn) | Modify(x: Txn) | Remove(id: Id)

  predicate Upserts(e: Event, id: Id) { !e.Remove? && e.x.id == id }

  predicate Removes(e: Event, id: Id) { e.Remove? && e.id == id }

  type Log = seq<Event>

  /** Plaid never re-adds a removed transaction. */
  ghost predicate WellFormed(log: Log) {
    forall i, j :: 0 <= i < j < |log| && !log[j].Remove? ==> !Removes(log[i], log[j].x.id)
  }

  /** What one page covers adds no transaction it modified before: the page lists additions and
      modifications apart, so their order would be lost. */
  ghost predicate AddsFirst(seg: Log) {
    forall i, j :: 0 <= i < j < |seg| && seg[j].Add? && seg[i].Modify? ==> seg[i].x.id != seg[j].x.id
  }

  /** The ledger a log describes, one id at a time: upserts replace the entry and make it
      live, removals flag what exists. */
  function History(log: Log, item: string, id: Id): Option<Entry> {
    if log == [] then None
    else
      var e, last := History(log[..|log| - 1], item, id), log[|log| - 1];
      if Upserts(last, id) then Some(Entry(item, last.x.v.cols, last.x.v.raw, false))
      else if Removes(last, id) && e.Some? then Some(e.value.(removed := true))
      else e
  }

  function LastUpsert(seg: Log, id: Id): Option<Txn> {
    if seg == [] then None
    else if Upserts(seg[|seg| - 1], id) then Some(seg[|seg| - 1].x)
    else LastUpsert(seg[..|seg| - 1], id)
  }

  ghost predicate SomeRemoves(seg: Log, id: Id) { exists k :: 0 <= k < |seg| && Removes(seg[k], id) }

  ghost predicate SomeUpserts(seg: Log, id: Id) { exists k :: 0 <= k < |seg| && Upserts(seg[k], id) }

  lemma {:induction false} HistoryFacts(log: Log, item: string, id: Id)
    ensures History(log, item, id).Some? ==> History(log, item, id).value.item == item && SomeUpserts(log, id)
    ensures History(log, item, id).Some? && History(log, item, id).value.removed ==> SomeRemoves(log, id)
  {
    if log != [] {
      var init := log[..|log| - 1];
      HistoryFacts(init, item, id);
      assert forall k :: 0 <= k < |init| ==> init[k] == log[k];
    }
  }

  /** One of the first n events says of q that p is its pending row. */
  ghost predicate OnceNamed(log: Log, n: nat, q: Id, p: Id) {
    exists k :: 0 <= k < n <= |log| && Upserts(log[k], q) && log[k].x.v.cols.pendingRef == Some(p)
  }

  /** What an entry refers to is what some event said. */
  lemma {:induction false} EntryWasSaid(log: Log, n: nat, item: string, q: Id, p: Id)
    requires n <= |log| && History(log[..n], item, q).Some?
    requires History(log[..n], item, q).value.cols.pendingRef == Some(p)
    ensures OnceNamed(log, n, q, p)
  {
    if n > 0 {
      assert log[..n][..n - 1] == log[..n - 1];
      if Upserts(log[n - 1], q) {
        assert log[..n][n - 1] == log[n - 1];
      } else {
        EntryWasSaid(log, n - 1, item, q, p);
      }
    }
  }

  /** What was upserted once has an entry from then on. */
  lemma {:induction false} UpsertedHasEntry(log: Log, n: nat, item: string, id: Id, k: nat)
    requires k < n <= |log| && Upserts(log[k], id)
    ensures History(log[..n], item, id).Some?
  {
    assert log[..n][..n - 1] == log[..n - 1] && log[..n][n - 1] == log[n - 1];
    if k < n - 1 { UpsertedHasEntry(log, n - 1, item, id, k); }
  }

  lemma {:induction false} LastUpsertFacts(seg: Log, id: Id)
    ensures LastUpsert(seg, id).Some? <==> SomeUpserts(seg, id)
    ensures LastUpsert(seg, id).Some? ==> LastUpsert(seg, id).value.id == id
    ensures LastUpsert(seg, id).Some? ==>
              exists k :: 0 <= k < |seg| && !seg[k].Remove? && seg[k].x == LastUpsert(seg, id).value
  {
    if seg != [] {
      var init := seg[..|seg| - 1];
      LastUpsertFacts(init, id);
      assert forall k :: 0 <= k < |init| ==> init[k] == seg[k];
      if SomeUpserts(seg, id) && !Upserts(seg[|seg| - 1], id) {
        var k :| 0 <= k < |seg| && Upserts(seg[k], id);
        assert Upserts(init[k], id);
      }
    }
  }

  lemma OneMoreRemoval(init: Log, last: Event, id: Id)
    ensures SomeRemoves(init + [last], id) <==> SomeRemoves(init, id) || Removes(last, id)
  {
    var seg := init + [last];
    if SomeRemoves(init, id) {
      var k :| 0 <= k < |init| && Removes(init[k], id);
      assert Removes(seg[k], id);
    }
    if Removes(last, id) { assert Removes(seg[|init|], id); }
  }

  /** In a well-formed log nothing upserted now was removed before. */
  lemma NothingRemovedBefore(log: Log, init: Log, last: Event, id: Id)
    requires WellFormed(log + (init + [last])) && Upserts(last, id)
    ensures !SomeRemoves(log, id) && !SomeRemoves(init, id)
  {
    var all := log + (init + [last]);
    var n := |log| + |init|;
    assert all[n] == last;
    forall k | 0 <= k < |log| ensures !Removes(log[k], id) { assert all[k] == log[k] && !Removes(all[k], all[n].x.id); }
    forall k | 0 <= k < |init| ensures !Removes(init[k], id) {
      assert all[|log| + k] == init[k] && !Removes(all[|log| + k], all[n].x.id);
    }
  }

  /** A log segment does to an entry what a batch of its last upserts and its removals does. */
  lemma {:induction false} SegmentIsStep(log: Log, seg: Log, item: string, id: Id)
    requires WellFormed(log + seg)
    ensures History(log + seg, item, id)
         == Step(History(log, item, id), LastUpsert(seg, id), SomeRemoves(seg, id), item)
  {
    HistoryFacts(log, item, id);
    if seg == [] {
      assert log + seg == log;
    } else {
      var init, last := seg[..|seg| - 1], seg[|seg| - 1];
      assert (log + seg)[..|log + seg| - 1] == log + init;
      assert forall k :: 0 <= k < |log + init| ==> (log + init)[k] == (log + seg)[k];
      SegmentIsStep(log, init, item, id);
      OneMoreRemoval(init, last, id);
      assert seg == init + [last];
      if Upserts(last, id) { NothingRemovedBefore(log, init, last, id); }
    }
  }

  // ---------------------------------------------------------------- pages

  function AddsOf(seg: Log): seq<Txn> {
    if seg == [] then []
    else AddsOf(seg[..|seg| - 1]) + if seg[|seg| - 1].Add? then [seg[|seg| - 1].x] else []
  }

  function ModsOf(seg: Log): seq<Txn> {
    if seg == [] then []
    else ModsOf(seg[..|seg| - 1]) + if seg[|seg| - 1].Modify? then [seg[|seg| - 1].x] else []
  }

  function RemovesOf(seg: Log): seq<Id> {
    if seg == [] then []
    else RemovesOf(seg[..|seg| - 1]) + if seg[|seg| - 1].Remove? then [seg[|seg| - 1].id] else []
  }

  /** The page lists exactly the events of a segment, by kind and in order. */
  ghost predicate Lists(page: Page, seg: Log) {
    AddsFirst(seg) && page.added == AddsOf(seg) && page.modified == ModsOf(seg) && page.removed == RemovesOf(seg)
  }

  lemma {:induction false} PageLast(seg: Log, id: Id)
    requires AddsFirst(seg)
    ensures LastUpsert(seg, id) == if Last(ModsOf(seg), id).Some? then Last(ModsOf(seg), id) else Last(AddsOf(seg), id)
    ensures Last(ModsOf(seg), id).Some? ==> exists k :: 0 <= k < |seg| && seg[k].Modify? && seg[k].x.id == id
    ensures id in RemovesOf(seg) <==> SomeRemoves(seg, id)
  {
    if seg != [] {
      var init, last := seg[..|seg| - 1], seg[|seg| - 1];
      assert forall k :: 0 <= k < |init| ==> init[k] == seg[k];
      PageLast(init, id);
      assert SomeRemoves(seg, id) <==> SomeRemoves(init, id) || Removes(last, id) by {
        if SomeRemoves(init, id) {
          var k :| 0 <= k < |init| && Removes(init[k], id);
          assert Removes(seg[k], id);
        }
        if Removes(last, id) { assert Removes(seg[|init|], id); }
      }
      LastSnoc(AddsOf(init), last, id);
      LastSnoc(ModsOf(init), last, id);
    }
  }

  lemma LastSnoc(xs: seq<Txn>, e: Event, id: Id)
    ensures !e.Remove? ==> Last(xs + [e.x], id) == if e.x.id == id then Some(e.x) else Last(xs, id)
    ensures xs + [] == xs
  {
    if !e.Remove? { assert (xs + [e.x])[..|xs|] == xs; }
  }

  /** The accumulated state stands for a segment: same last upserts, same removals. */
  ghost predicate Reflects(acc: Accumulated, seg: Log) {
    && (forall id :: Last(acc.upserts, id) == LastUpsert(seg, id))
    && (forall id :: id in acc.removed <==> SomeRemoves(seg, id))
  }

  lemma {:induction false} LastUpsertAppend(s1: Log, s2: Log, id: Id)
    ensures LastUpsert(s1 + s2, id) == if LastUpsert(s2, id).Some? then LastUpsert(s2, id) else LastUpsert(s1, id)
    ensures SomeRemoves(s1 + s2, id) <==> SomeRemoves(s1, id) || SomeRemoves(s2, id)
  {
    if SomeRemoves(s1, id) {
      var k :| 0 <= k < |s1| && Removes(s1[k], id);
      assert Removes((s1 + s2)[k], id);
    }
    if SomeRemoves(s2, id) {
      var k :| 0 <= k < |s2| && Removes(s2[k], id);
      assert Removes((s1 + s2)[|s1| + k], id);
    }
    if s2 == [] {
      assert s1 + s2 == s1;
    } else {
      assert (s1 + s2)[..|s1 + s2| - 1] == s1 + s2[..|s2| - 1];
      LastUpsertAppend(s1, s2[..|s2| - 1], id);
    }
  }

  /** Absorbing the next page extends the segment the state stands for. */
  lemma AbsorbExtends(acc: Accumulated, seg: Log, page: Page, more: Log)
    requires Reflects(acc, seg) && Lists(page, more)
    ensures Reflects(Absorb(acc, page), seg + more)
  {
    var acc' := Absorb(acc, page);
    forall id ensures Last(acc'.upserts, id) == LastUpsert(seg + more, id) {
      LastOfAppend(acc.upserts + page.added, page.modified, id);
      LastOfAppend(acc.upserts, page.added, id);
      PageLast(more, id);
      LastUpsertAppend(seg, more, id);
    }
    forall id ensures id in acc'.removed <==> SomeRemoves(seg + more, id) {
      PageLast(more, id);
      LastUpsertAppend(seg, more, id);
    }
  }
}
