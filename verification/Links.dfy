/** What the two link statements of a batch come to, row by row: who names a row decides whether
    it is superseded, by whom and since when, and how many links are reported. */
module Links {
  import opened Wrappers
  import opened Records
  import opened Ledger

  /** q names p as its pending row, by its delivered reference or, if p is delivered, by a stored
      row of the item. */
  ghost predicate Names(t: Table, item: string, u: seq<Txn>, q: Id, p: Id) {
    || (p != "" && exists x :: x in u && x.id == q && x.v.cols.pendingRef == Some(p))
    || ((exists x :: x in u && x.id == p) && q in t && t[q].item == item && t[q].cols.pendingRef == Some(p))
  }

  function LinkBy(t: Table, p: Id): Option<Id> { if p in t then t[p].supersededBy else None }

  function LinkAt(t: Table, p: Id): Option<nat> { if p in t then t[p].supersededAt else None }

  /** Nothing but what the row is linked to already names it. */
  ghost predicate Stands(t: Table, item: string, u: seq<Txn>, p: Id, link: Option<Id>)
    requires p in t
  {
    t[p].item != item || forall q :: Names(t, item, u, q, p) ==> link == Some(q)
  }

  /** The link of a row after a batch: as it was, unless something else names the row; then to
      a namer, since the first time it had one. */
  ghost predicate RightlyLinked(t: Table, t': Table, item: string, u: seq<Txn>, now: nat, p: Id)
    requires p in t'
  {
    if Stands(t', item, u, p, LinkBy(t, p)) then
      t'[p].supersededBy == LinkBy(t, p) && t'[p].supersededAt == LinkAt(t, p)
    else
      && t'[p].supersededBy.Some? && Names(t', item, u, t'[p].supersededBy.value, p)
      && t'[p].supersededAt == if LinkAt(t, p).Some? then LinkAt(t, p) else Some(now)
  }

  ghost predicate AllRightlyLinked(t: Table, t': Table, item: string, u: seq<Txn>, now: nat) {
    forall p :: p in t' ==> RightlyLinked(t, t', item, u, now, p)
  }

  lemma NamesAreNamers(t: Table, item: string, u: seq<Txn>, q: Id, p: Id)
    ensures q in Namers(t, item, u, p) <==> Names(t, item, u, q, p)
  {
  }

  lemma RelinkedTwice(r: Row, p: Id, d: set<Id>, s: set<Id>, now: nat, pick: Pick)
    requires ValidPick(pick)
    ensures var r' := Relink(Relink(r, p, d, now, pick), p, s, now, pick);
            if forall q :: q in d + s ==> r.supersededBy == Some(q) then r' == r
            else
              && r'.supersededBy.Some? && r'.supersededBy.value in d + s
              && r'.supersededAt == if r.supersededAt.Some? then r.supersededAt else Some(now)
  {
    var f := Relink(r, p, d, now, pick);
    RelinkPoints(r, p, d, now, pick);
    RelinkPoints(f, p, s, now, pick);
    if q :| q in d + s && r.supersededBy != Some(q) {
      assert q in d ==> q in Candidates(r, d);
      assert q in s && f == r ==> q in Candidates(f, s);
    }
  }

  lemma LinkedRow(t: Table, item: string, u: seq<Txn>, now: nat, pick: Pick, p: Id)
    requires p in t
    ensures var t' := LinkPending(t, item, u, now, pick);
            p in t' && t'[p] == if t[p].item != item then t[p]
                                else Relink(Relink(t[p], p, DeliveredNamers(u, p), now, pick), p,
                                            StoredNamers(t, item, u, p), now, pick)
  {
    LinksKeepNamers(t, item, u, now, pick, p);
  }

  lemma NamesStay(t: Table, item: string, u: seq<Txn>, now: nat, pick: Pick, q: Id, p: Id)
    ensures Names(LinkPending(t, item, u, now, pick), item, u, q, p) <==> Names(t, item, u, q, p)
  {
    LinksKeepNamers(t, item, u, now, pick, p);
    NamesAreNamers(t, item, u, q, p);
    NamesAreNamers(LinkPending(t, item, u, now, pick), item, u, q, p);
  }

  /** The two statements link every row rightly and leave the rest of it. */
  lemma LinkPendingIsRight(t: Table, item: string, u: seq<Txn>, now: nat, pick: Pick, p: Id)
    requires p in t && ValidPick(pick)
    ensures var t' := LinkPending(t, item, u, now, pick);
            p in t' && RightlyLinked(t, t', item, u, now, p)
  {
    var t' := LinkPending(t, item, u, now, pick);
    LinkedRow(t, item, u, now, pick, p);
    LinkKeepsRest(t, item, u, now, pick, p);
    var d, s := DeliveredNamers(u, p), StoredNamers(t, item, u, p);
    RelinkedTwice(t[p], p, d, s, now, pick);
    forall q ensures q in d + s <==> Names(t', item, u, q, p) {
      NamesStay(t, item, u, now, pick, q, p);
      NamesAreNamers(t, item, u, q, p);
    }
  }

  lemma LinksBefore(t: Table, item: string, u: seq<Txn>, removed: seq<Id>, now: nat, p: Id)
    requires DistinctIds(u)
    ensures var t2 := SoftDelete(UpsertAll(t, item, u, now), item, removed, now);
            LinkBy(t2, p) == LinkBy(t, p) && LinkAt(t2, p) == LinkAt(t, p)
  {
    UpsertAllKeeps(t, item, u, now, p);
  }

  /** So does a whole batch, new rows having no link before it. */
  lemma BatchLinksRightly(t: Table, item: string, u: seq<Txn>, removed: seq<Id>, now: nat, pick: Pick)
    requires DistinctIds(u) && ValidPick(pick)
    ensures AllRightlyLinked(t, ApplyTxns(t, item, u, removed, now, pick), item, u, now)
  {
    var t2 := SoftDelete(UpsertAll(t, item, u, now), item, removed, now);
    forall p | p in t2 ensures RightlyLinked(t, ApplyTxns(t, item, u, removed, now, pick), item, u, now, p) {
      LinkPendingIsRight(t2, item, u, now, pick, p);
      LinksBefore(t, item, u, removed, now, p);
    }
  }

  // ---------------------------------------------------------------- the reported count

  /** The rows of the new table that something names that they were not linked to. */
  ghost function Unsettled(t: Table, t': Table, item: string, u: seq<Txn>): set<Id> {
    set p | p in t' && !Stands(t', item, u, p, LinkBy(t, p))
  }

  ghost predicate NamedOnce(t: Table, item: string, u: seq<Txn>) {
    forall p, a, b :: p in t && t[p].item == item && Names(t, item, u, a, p) && Names(t, item, u, b, p) ==> a == b
  }

  /** Each such row is reported once or twice; once if nothing else names it. */
  ghost predicate Reported(n: nat, t: Table, t': Table, item: string, u: seq<Txn>) {
    var k := |Unsettled(t, t', item, u)|;
    k <= n <= 2 * k && (NamedOnce(t', item, u) ==> n == k)
  }

  lemma RowIsReported(t: Table, item: string, u: seq<Txn>, now: nat, pick: Pick, p: Id)
    requires p in t && ValidPick(pick)
    ensures var d, s := DeliveredNamers(u, p), StoredNamers(t, item, u, p);
            var f := Relink(t[p], p, d, now, pick);
            && (!Stands(t, item, u, p, t[p].supersededBy) <==>
                  t[p].item == item && (Candidates(t[p], d) != {} || Candidates(f, s) != {}))
            && (t[p].item == item && NamedOnce(t, item, u) ==> Candidates(t[p], d) == {} || Candidates(f, s) == {})
  {
    var d, s := DeliveredNamers(u, p), StoredNamers(t, item, u, p);
    var f := Relink(t[p], p, d, now, pick);
    RelinkPoints(t[p], p, d, now, pick);
    forall q ensures q in d + s <==> Names(t, item, u, q, p) { NamesAreNamers(t, item, u, q, p); }
    if t[p].item == item {
      if q :| Names(t, item, u, q, p) && t[p].supersededBy != Some(q) {
        assert q in d ==> q in Candidates(t[p], d);
        assert q in s && f == t[p] ==> q in Candidates(f, s);
      }
    }
  }

  lemma LinksAreReported(t: Table, item: string, u: seq<Txn>, now: nat, pick: Pick)
    requires ValidPick(pick)
    ensures Reported(LinkCount(t, item, u, now, pick), t, LinkPending(t, item, u, now, pick), item, u)
  {
    var t' := LinkPending(t, item, u, now, pick);
    var f, r := LinkedForward(t, item, u), LinkedReverse(LinkForward(t, item, u, now, pick), item, u);
    var all := Unsettled(t, t', item, u);
    if NamedOnce(t', item, u) { NamedOnceStays(t, item, u, now, pick); }
    forall p ensures (p in f || p in r <==> p in all) && (NamedOnce(t', item, u) ==> p !in f || p !in r) {
      RowIsCounted(t, item, u, now, pick, p);
      if p in t { StandsStays(t, item, u, now, pick, p); }
    }
    CountBoth(f, r, all);
  }

  lemma NamedOnceStays(t: Table, item: string, u: seq<Txn>, now: nat, pick: Pick)
    requires NamedOnce(LinkPending(t, item, u, now, pick), item, u)
    ensures NamedOnce(t, item, u)
  {
    var t' := LinkPending(t, item, u, now, pick);
    forall p, a, b | p in t && t[p].item == item && Names(t, item, u, a, p) && Names(t, item, u, b, p) ensures a == b {
      NamesStay(t, item, u, now, pick, a, p);
      NamesStay(t, item, u, now, pick, b, p);
      LinkedRow(t, item, u, now, pick, p);
      LinkKeepsRest(t, item, u, now, pick, p);
    }
  }

  lemma StandsStays(t: Table, item: string, u: seq<Txn>, now: nat, pick: Pick, p: Id)
    requires p in t
    ensures var t' := LinkPending(t, item, u, now, pick);
            p in t' && (Stands(t', item, u, p, t[p].supersededBy) <==> Stands(t, item, u, p, t[p].supersededBy))
  {
    LinkedRow(t, item, u, now, pick, p);
    LinkKeepsRest(t, item, u, now, pick, p);
    forall q ensures Names(LinkPending(t, item, u, now, pick), item, u, q, p) <==> Names(t, item, u, q, p) {
      NamesStay(t, item, u, now, pick, q, p);
    }
  }

  /** The count of a whole batch, by the rows before and after it. */
  lemma BatchReports(t: Table, item: string, u: seq<Txn>, removed: seq<Id>, now: nat, pick: Pick)
    requires DistinctIds(u) && ValidPick(pick)
    ensures var t2 := SoftDelete(UpsertAll(t, item, u, now), item, removed, now);
            Reported(LinkCount(t2, item, u, now, pick), t, ApplyTxns(t, item, u, removed, now, pick), item, u)
  {
    var t2 := SoftDelete(UpsertAll(t, item, u, now), item, removed, now);
    var t' := LinkPending(t2, item, u, now, pick);
    LinksAreReported(t2, item, u, now, pick);
    forall p ensures p in Unsettled(t, t', item, u) <==> p in Unsettled(t2, t', item, u) {
      LinksBefore(t, item, u, removed, now, p);
    }
    assert Unsettled(t, t', item, u) == Unsettled(t2, t', item, u);
  }

  lemma RowIsCounted(t: Table, item: string, u: seq<Txn>, now: nat, pick: Pick, p: Id)
    requires ValidPick(pick)
    ensures var f, r := LinkedForward(t, item, u), LinkedReverse(LinkForward(t, item, u, now, pick), item, u);
            (p in f || p in r <==> p in t && !Stands(t, item, u, p, t[p].supersededBy))
            && (NamedOnce(t, item, u) ==> p !in f || p !in r)
  {
    if p in t {
      RowIsReported(t, item, u, now, pick, p);
      LinksKeepNamers(t, item, u, now, pick, p);
    }
  }

  lemma CountBoth<T>(a: set<T>, b: set<T>, all: set<T>)
    requires forall x :: x in a || x in b <==> x in all
    ensures |all| <= |a| + |b| <= 2 * |all|
    ensures (forall x :: x in a ==> x !in b) ==> |a| + |b| == |all|
  {
    assert a + b == all;
    assert |a + b| == |a| + |b| - |a * b|;
    FewerThan(a, all);
    FewerThan(b, all);
    if forall x :: x in a ==> x !in b { assert a * b == {}; }
  }

  // ---------------------------------------------------------------- links and the table

  lemma DeliveredStands(t: Table, item: string, u: seq<Txn>, removed: seq<Id>, now: nat, pick: Pick, decode: Decoder,
                        x: Txn)
    requires DistinctIds(u) && Decoded(t, decode) && DecodedAll(u, decode) && OwnIds(t, item, u) && x in u
    ensures var t' := ApplyTxns(t, item, u, removed, now, pick);
            x.id in t' && t'[x.id].item == item && t'[x.id].cols == x.v.cols
  {
    LastOfDistinct(u, x);
    BatchEntryAt(t, item, u, removed, now, pick, decode, x.id);
  }

  /** Where every payload decodes alike and the deliveries are the item's own, a batch links a
      row only within its item and only to a stored row that names it. */
  lemma NewLinksAreNamed(t: Table, item: string, u: seq<Txn>, removed: seq<Id>, now: nat, pick: Pick, decode: Decoder,
                         p: Id)
    requires DistinctIds(u) && ValidPick(pick) && Decoded(t, decode) && DecodedAll(u, decode) && OwnIds(t, item, u)
    requires p in ApplyTxns(t, item, u, removed, now, pick)
    ensures var t' := ApplyTxns(t, item, u, removed, now, pick);
            t'[p].supersededBy != LinkBy(t, p) ==>
              && t'[p].item == item && t'[p].supersededBy.Some?
              && var q := t'[p].supersededBy.value;
                 q in t' && t'[q].item == item && t'[q].cols.pendingRef == Some(p)
  {
    var t' := ApplyTxns(t, item, u, removed, now, pick);
    BatchLinksRightly(t, item, u, removed, now, pick);
    assert RightlyLinked(t, t', item, u, now, p);
    if t'[p].supersededBy != LinkBy(t, p) {
      var q := t'[p].supersededBy.value;
      if x :| x in u && x.id == q && x.v.cols.pendingRef == Some(p) {
        DeliveredStands(t, item, u, removed, now, pick, decode, x);
      }
    }
  }
}
