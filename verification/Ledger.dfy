/** The transaction half of a sync batch: the `transactions` table and the four SQL
    statements plaidsync runs on it (upsert, soft delete, and the two pending links).
    Statements are functions from table to table; ApplyTxns runs them in order. */
module Ledger {
  import opened Wrappers
  import opened Records

  /** The normalised columns of a row. They are decoded from the raw payload. */
  datatype Columns = Columns(account: string, amount: string, dated: bool,
                             pendingRef: Option<Id>, other: string)

  /** A transaction as Plaid delivers it. */
  datatype Payload = Payload(cols: Columns, raw: string)

  type Txn = Keyed<Payload>

  datatype Row = Row(item: string, cols: Columns, raw: string,
                     supersededBy: Option<Id>, supersededAt: Option<nat>,
                     removedAt: Option<nat>, firstSeenAt: nat)

  type Table = map<Id, Row>

  /** The columns are a function of the payload: every stored row and every delivered
      transaction was decoded by the same decoder. */
  type Decoder = string -> Columns

  ghost predicate Decoded(t: Table, decode: Decoder) {
    forall id :: id in t ==> t[id].cols == decode(t[id].raw)
  }

  ghost predicate DecodedAll(xs: seq<Txn>, decode: Decoder) {
    forall k :: 0 <= k < |xs| ==> xs[k].v.cols == decode(xs[k].v.raw)
  }

  function Get(t: Table, id: Id): Option<Row> {
    if id in t then Some(t[id]) else None
  }

  function Coalesce(t: Option<nat>, now: nat): Option<nat> {
    if t.Some? then t else Some(now)
  }

  // ---------------------------------------------------------------- upsert

  /** INSERT ... ON CONFLICT DO UPDATE ... WHERE raw IS DISTINCT FROM EXCLUDED.raw */
  function UpsertOne(t: Table, item: string, x: Txn, now: nat): Table {
    if x.id !in t then
      t[x.id := Row(item, x.v.cols, x.v.raw, None, None, None, now)]
    else if t[x.id].raw == x.v.raw then t
    else t[x.id := t[x.id].(cols := x.v.cols, raw := x.v.raw)]
  }

  function UpsertAll(t: Table, item: string, xs: seq<Txn>, now: nat): Table {
    if xs == [] then t
    else UpsertOne(UpsertAll(t, item, xs[..|xs| - 1], now), item, xs[|xs| - 1], now)
  }

  /** What one delivery makes of one row: data replaced, history kept. */
  function Refreshed(was: Option<Row>, x: Option<Txn>, item: string, now: nat): Option<Row> {
    match x
    case None => was
    case Some(x) =>
      match was
      case None => Some(Row(item, x.v.cols, x.v.raw, None, None, None, now))
      case Some(r) => Some(r.(cols := x.v.cols, raw := x.v.raw))
  }

  /** One upsert leaves the delivered data in the row unless the payload is the stored
      one; then the row is not written, so it holds the delivered columns exactly when
      it already did. */
  lemma UpsertOneStores(t: Table, item: string, x: Txn, now: nat)
    ensures Get(UpsertOne(t, item, x, now), x.id) == Refreshed(Get(t, x.id), Some(x), item, now)
       <==> (x.id in t && t[x.id].raw == x.v.raw ==> t[x.id].cols == x.v.cols)
  {
  }

  /** Pointwise meaning of a list of upserts: the last delivery of each id wins. */
  lemma {:induction false} UpsertAllAt(t: Table, item: string, xs: seq<Txn>, now: nat, decode: Decoder, id: Id)
    requires Decoded(t, decode) && DecodedAll(xs, decode)
    ensures Decoded(UpsertAll(t, item, xs, now), decode)
    ensures Get(UpsertAll(t, item, xs, now), id) == Refreshed(Get(t, id), Last(xs, id), item, now)
  {
    if xs != [] {
      var init, x := xs[..|xs| - 1], xs[|xs| - 1];
      UpsertAllAt(t, item, init, now, decode, id);
      if x.id == id && init != [] {
        LastIsDecoded(init, id, decode);
      }
    }
  }

  lemma {:induction false} LastIsDecoded(xs: seq<Txn>, id: Id, decode: Decoder)
    requires DecodedAll(xs, decode)
    ensures Last(xs, id).Some? ==> Last(xs, id).value in xs && Last(xs, id).value.id == id
    ensures Last(xs, id).Some? ==> Last(xs, id).value.v.cols == decode(Last(xs, id).value.v.raw)
  {
    if xs != [] {
      LastIsDecoded(xs[..|xs| - 1], id, decode);
    }
  }

  /** Writing the deduplicated list is writing the whole list one by one. */
  lemma DedupeRefinesUpserts(t: Table, item: string, xs: seq<Txn>, out: seq<Txn>, now: nat, decode: Decoder)
    requires IsDedupe(xs, out)
    requires Decoded(t, decode) && DecodedAll(xs, decode)
    ensures UpsertAll(t, item, out, now) == UpsertAll(t, item, xs, now)
  {
    DedupedAreDecoded(xs, out, decode);
    var a, b := UpsertAll(t, item, out, now), UpsertAll(t, item, xs, now);
    forall id ensures Get(a, id) == Get(b, id) {
      UpsertAllAt(t, item, out, now, decode, id);
      UpsertAllAt(t, item, xs, now, decode, id);
      DedupeKeepsLast(xs, out, id);
    }
    assert forall id :: id in a <==> Get(a, id).Some?;
    assert forall id :: id in b <==> Get(b, id).Some?;
    assert forall id :: id in a ==> Get(a, id) == Some(a[id]);
    assert forall id :: id in b ==> Get(b, id) == Some(b[id]);
  }

  lemma DedupedAreDecoded(xs: seq<Txn>, out: seq<Txn>, decode: Decoder)
    requires IsDedupe(xs, out) && DecodedAll(xs, decode)
    ensures DecodedAll(out, decode)
  {
    forall k | 0 <= k < |out| ensures out[k].v.cols == decode(out[k].v.raw) {
      LastIsDecoded(xs, out[k].id, decode);
    }
  }

  // ------------------------------------------------- soft delete and pending links

  /** UPDATE ... SET removed_at = COALESCE(removed_at, clock) for the item's listed ids */
  function SoftDelete(t: Table, item: string, ids: seq<Id>, now: nat): Table {
    map id | id in t :: if id in ids && t[id].item == item
                        then t[id].(removedAt := Coalesce(t[id].removedAt, now)) else t[id]
  }

  /** The rows the statement removes for the first time. */
  function NewlyRemoved(t: Table, item: string, ids: seq<Id>): set<Id> {
    set id | id in t && id in ids && t[id].item == item && t[id].removedAt.None?
  }

  /** UPDATE ... FROM with several matching source rows keeps one of them, and Postgres
      does not say which: the choice is a parameter of the statement. */
  type Pick = (Id, set<Id>) -> Id

  ghost predicate ValidPick(pick: Pick) {
    forall p: Id, s: set<Id> :: s != {} ==> pick(p, s) in s
  }

  /** The successors the row is not linked to yet. */
  function Candidates(r: Row, namers: set<Id>): set<Id> {
    namers - (if r.supersededBy.Some? then {r.supersededBy.value} else {})
  }

  function Relink(r: Row, p: Id, namers: set<Id>, now: nat, pick: Pick): Row {
    var c := Candidates(r, namers);
    if c == {} then r
    else r.(supersededBy := Some(pick(p, c)), supersededAt := Coalesce(r.supersededAt, now))
  }

  /** The posted transactions of the delivery that name p as their pending row. */
  function DeliveredNamers(u: seq<Txn>, p: Id): set<Id> {
    set x | x in u && p != "" && x.v.cols.pendingRef == Some(p) :: x.id
  }

  /** The stored rows of the item that name p, when the delivery contains p. */
  function StoredNamers(t: Table, item: string, u: seq<Txn>, p: Id): set<Id> {
    if exists x :: x in u && x.id == p then
      set q | q in t && t[q].item == item && t[q].cols.pendingRef == Some(p)
    else {}
  }

  function LinkForward(t: Table, item: string, u: seq<Txn>, now: nat, pick: Pick): Table {
    map p | p in t :: if t[p].item == item then Relink(t[p], p, DeliveredNamers(u, p), now, pick) else t[p]
  }

  function LinkReverse(t: Table, item: string, u: seq<Txn>, now: nat, pick: Pick): Table {
    map p | p in t :: if t[p].item == item then Relink(t[p], p, StoredNamers(t, item, u, p), now, pick) else t[p]
  }

  /** The rows the forward and the reverse statement write. */
  function LinkedForward(t: Table, item: string, u: seq<Txn>): set<Id> {
    set p | p in t && t[p].item == item && Candidates(t[p], DeliveredNamers(u, p)) != {}
  }

  function LinkedReverse(t: Table, item: string, u: seq<Txn>): set<Id> {
    set p | p in t && t[p].item == item && Candidates(t[p], StoredNamers(t, item, u, p)) != {}
  }

  /** Steps 3 to 5 of a batch whose upserts are already deduplicated. */
  function ApplyTxns(t: Table, item: string, u: seq<Txn>, removed: seq<Id>, now: nat, pick: Pick): Table {
    LinkPending(SoftDelete(UpsertAll(t, item, u, now), item, removed, now), item, u, now, pick)
  }

  function LinkPending(t: Table, item: string, u: seq<Txn>, now: nat, pick: Pick): Table {
    LinkReverse(LinkForward(t, item, u, now, pick), item, u, now, pick)
  }

  /** How many links the two statements report. */
  function LinkCount(t: Table, item: string, u: seq<Txn>, now: nat, pick: Pick): nat {
    |LinkedForward(t, item, u)| + |LinkedReverse(LinkForward(t, item, u, now, pick), item, u)|
  }

  // ------------------------------------------------------------------ row by row

  /** A row apart from its pending link. */
  function Unlinked(r: Option<Row>): Option<Row> {
    match r
    case None => None
    case Some(r) => Some(r.(supersededBy := None, supersededAt := None))
  }

  /** What a batch makes of one row, links apart: the last delivery of its id, then the
      removal, which only reaches rows of the batch's own item. */
  function Settled(was: Option<Row>, x: Option<Txn>, gone: bool, item: string, now: nat): Option<Row> {
    var r := Refreshed(was, x, item, now);
    if r.Some? && gone && r.value.item == item
    then Some(r.value.(removedAt := Coalesce(r.value.removedAt, now))) else r
  }

  lemma LinkKeepsRest(t: Table, item: string, u: seq<Txn>, now: nat, pick: Pick, id: Id)
    ensures Unlinked(Get(LinkPending(t, item, u, now, pick), id)) == Unlinked(Get(t, id))
    ensures id in t && t[id].supersededBy.Some? ==> LinkPending(t, item, u, now, pick)[id].supersededBy.Some?
  {
    var f := LinkForward(t, item, u, now, pick);
    assert Unlinked(Get(f, id)) == Unlinked(Get(t, id));
  }

  lemma BatchAt(t: Table, item: string, u: seq<Txn>, removed: seq<Id>, now: nat, pick: Pick, decode: Decoder, id: Id)
    requires Decoded(t, decode) && DecodedAll(u, decode)
    ensures Unlinked(Get(ApplyTxns(t, item, u, removed, now, pick), id))
         == Unlinked(Settled(Get(t, id), Last(u, id), id in removed, item, now))
  {
    UpsertAllAt(t, item, u, now, decode, id);
    LinkKeepsRest(SoftDelete(UpsertAll(t, item, u, now), item, removed, now), item, u, now, pick, id);
  }

  lemma BatchIsDecoded(t: Table, item: string, u: seq<Txn>, removed: seq<Id>, now: nat, pick: Pick, decode: Decoder)
    requires Decoded(t, decode) && DecodedAll(u, decode)
    ensures Decoded(ApplyTxns(t, item, u, removed, now, pick), decode)
  {
    var t2 := SoftDelete(UpsertAll(t, item, u, now), item, removed, now);
    var t' := LinkPending(t2, item, u, now, pick);
    forall id | id in t' ensures t'[id].cols == decode(t'[id].raw) {
      UpsertAllAt(t, item, u, now, decode, id);
      LinkKeepsRest(t2, item, u, now, pick, id);
    }
  }

  /** What consumers read of a row: its owner, data and removal flag. */
  datatype Entry = Entry(item: string, cols: Columns, raw: string, removed: bool)

  function EntryAt(t: Table, id: Id): Option<Entry> {
    if id in t then Some(Entry(t[id].item, t[id].cols, t[id].raw, t[id].removedAt.Some?)) else None
  }

  /** What a batch makes of an entry: the delivered data, then the removal flag. */
  function Step(e: Option<Entry>, x: Option<Txn>, gone: bool, item: string): Option<Entry> {
    var d := match x
             case None => e
             case Some(x) =>
               Some(Entry(if e.Some? then e.value.item else item, x.v.cols, x.v.raw, e.Some? && e.value.removed));
    if d.Some? && gone && d.value.item == item then Some(d.value.(removed := true)) else d
  }

  lemma BatchEntryAt(t: Table, item: string, u: seq<Txn>, removed: seq<Id>, now: nat, pick: Pick, decode: Decoder,
                     id: Id)
    requires Decoded(t, decode) && DecodedAll(u, decode)
    ensures EntryAt(ApplyTxns(t, item, u, removed, now, pick), id)
         == Step(EntryAt(t, id), Last(u, id), id in removed, item)
  {
    BatchAt(t, item, u, removed, now, pick, decode, id);
    var t' := ApplyTxns(t, item, u, removed, now, pick);
    assert EntryAt(t', id).Some? <==> Unlinked(Get(t', id)).Some?;
  }

  // ---------------------------------------------------------------- composition

  /** The only way two batches differ from their concatenation: the first removes an id
      that does not exist yet and the second delivers it without removing it again. */
  ghost predicate RemovedBeforeKnown(t: Table, xs1: seq<Txn>, r1: seq<Id>, xs2: seq<Txn>, r2: seq<Id>, id: Id) {
    id !in t && Last(xs1, id).None? && id in r1 && Last(xs2, id).Some? && id !in r2
  }

  /** Accumulating the pages of two deliveries in memory and applying them once leaves the
      same entry for an id as applying them one after the other, exactly unless the id was
      removed before it was known. The lists are those the two paths deduplicated. */
  lemma BatchesCompose(t: Table, item: string, xs1: seq<Txn>, u1: seq<Txn>, r1: seq<Id>, xs2: seq<Txn>, u2: seq<Txn>,
                       r2: seq<Id>, u12: seq<Txn>, now1: nat, now2: nat, pick: Pick, decode: Decoder, id: Id)
    requires IsDedupe(xs1, u1) && IsDedupe(xs2, u2) && IsDedupe(xs1 + xs2, u12)
    requires Decoded(t, decode) && DecodedAll(xs1, decode) && DecodedAll(xs2, decode)
    ensures EntryAt(ApplyTxns(ApplyTxns(t, item, u1, r1, now1, pick), item, u2, r2, now2, pick), id)
         == EntryAt(ApplyTxns(t, item, u12, r1 + r2, now2, pick), id)
       <==> !RemovedBeforeKnown(t, xs1, r1, xs2, r2, id)
  {
    DedupedAreDecoded(xs1, u1, decode);
    DedupedAreDecoded(xs2, u2, decode);
    DedupedAreDecoded(xs1 + xs2, u12, decode);
    DedupeKeepsLast(xs1, u1, id);
    DedupeKeepsLast(xs2, u2, id);
    DedupeKeepsLast(xs1 + xs2, u12, id);
    LastOfAppend(xs1, xs2, id);
    BatchEntryAt(t, item, u1, r1, now1, pick, decode, id);
    BatchIsDecoded(t, item, u1, r1, now1, pick, decode);
    BatchEntryAt(ApplyTxns(t, item, u1, r1, now1, pick), item, u2, r2, now2, pick, decode, id);
    BatchEntryAt(t, item, u12, r1 + r2, now2, pick, decode, id);
    StepsCompose(EntryAt(t, id), Last(u1, id), id in r1, Last(u2, id), id in r2, item);
  }

  /** A transaction removed before it was known and delivered afterwards: two batches leave it
      live, the pages of both accumulated leave it removed. */
  lemma RemovedThenDelivered(item: string, x: Txn, now1: nat, now2: nat, pick: Pick)
    ensures EntryAt(ApplyTxns(ApplyTxns(map[], item, [], [x.id], now1, pick), item, [x], [], now2, pick), x.id)
         != EntryAt(ApplyTxns(map[], item, [x], [x.id], now2, pick), x.id)
  {
    var decode: Decoder := _ => x.v.cols;
    assert [] + [x] == [x] && [x.id] + [] == [x.id];
    FirstBounds([x], x.id);
    assert [x][..0] == [] && Last([x], x.id) == Some(x);
    BatchesCompose(map[], item, [], [], [x.id], [x], [x], [], [x], now1, now2, pick, decode, x.id);
  }

  lemma StepsCompose(e: Option<Entry>, x1: Option<Txn>, g1: bool, x2: Option<Txn>, g2: bool, item: string)
    ensures Step(Step(e, x1, g1, item), x2, g2, item)
         == Step(e, if x2.Some? then x2 else x1, g1 || g2, item)
       <==> !(e.None? && x1.None? && g1 && x2.Some? && !g2)
  {
  }

  // ---------------------------------------------------------------- live rows

  /** No live row is named as the pending row of a stored transaction of its item: a
      named row is superseded, whichever of the two arrived first. */
  ghost predicate NamedAreSuperseded(t: Table) {
    forall p, q :: p in t && q in t && t[p].item == t[q].item && t[q].cols.pendingRef == Some(p)
                   ==> t[p].supersededBy.Some?
  }

  /** The delivery holds valid ids and none that another item's row already has. */
  ghost predicate OwnIds(t: Table, item: string, u: seq<Txn>) {
    forall x :: x in u ==> x.id != "" && (x.id in t ==> t[x.id].item == item)
  }

  /** What an upsert leaves behind, without knowing how payloads decode. */
  ghost predicate Upserted(was: Option<Row>, x: Option<Txn>, item: string, now: nat, r: Option<Row>) {
    match x
    case None => r == was
    case Some(x) =>
      && r.Some? && r.value.raw == x.v.raw
      && (r.value.cols == x.v.cols || r == was)
      && r == Some((if was.Some? then was.value else Row(item, x.v.cols, x.v.raw, None, None, None, now))
                   .(cols := r.value.cols, raw := x.v.raw))
  }

  lemma {:induction false} UpsertAllKeeps(t: Table, item: string, u: seq<Txn>, now: nat, id: Id)
    requires DistinctIds(u)
    ensures Upserted(Get(t, id), Last(u, id), item, now, Get(UpsertAll(t, item, u, now), id))
  {
    if u != [] {
      var init, x := u[..|u| - 1], u[|u| - 1];
      UpsertAllKeeps(t, item, init, now, id);
      if x.id == id {
        FirstBounds(init, id);
        assert !HasId(init, id);
      }
    }
  }

  lemma BatchKeepsNamedSuperseded(t: Table, item: string, u: seq<Txn>, removed: seq<Id>, now: nat, pick: Pick)
    requires NamedAreSuperseded(t) && "" !in t
    requires DistinctIds(u) && OwnIds(t, item, u)
    ensures NamedAreSuperseded(ApplyTxns(t, item, u, removed, now, pick))
    ensures "" !in ApplyTxns(t, item, u, removed, now, pick)
  {
    var t2 := SoftDelete(UpsertAll(t, item, u, now), item, removed, now);
    var t' := LinkPending(t2, item, u, now, pick);
    forall id ensures OwnRow(t, item, u, t2, id) {
      UpsertAllKeeps(t, item, u, now, id);
      FirstBounds(u, id);
    }
    forall p, q | p in t' && q in t' && t'[p].item == t'[q].item && t'[q].cols.pendingRef == Some(p)
      ensures t'[p].supersededBy.Some?
    {
      LinkKeepsRest(t2, item, u, now, pick, p);
      LinkKeepsRest(t2, item, u, now, pick, q);
      assert OwnRow(t, item, u, t2, p) && OwnRow(t, item, u, t2, q);
      NamedGetsSuperseded(t, item, u, t2, now, pick, p, q);
    }
    assert OwnRow(t, item, u, t2, "");
    LinkKeepsRest(t2, item, u, now, pick, "");
  }

  /** How a row stands after the writes of a batch: untouched by it, or its own item's row
      holding the delivered reference unless the payload was stored before. */
  ghost predicate OwnRow(t: Table, item: string, u: seq<Txn>, t2: Table, id: Id) {
    match Last(u, id)
    case None =>
      (id in t <==> id in t2) && (id in t ==> t2[id].item == t[id].item && t2[id].cols == t[id].cols
                                              && t2[id].supersededBy == t[id].supersededBy)
    case Some(x) =>
      && x in u && x.id == id && id in t2 && id != "" && t2[id].item == item
      && (t2[id].cols == x.v.cols || (id in t && t2[id].cols == t[id].cols))
      && (id in t ==> t[id].item == item && t2[id].supersededBy == t[id].supersededBy)
  }

  lemma RelinkLinks(r: Row, p: Id, namers: set<Id>, now: nat, pick: Pick, q: Id)
    requires q in namers
    ensures Relink(r, p, namers, now, pick).supersededBy.Some?
  {
    assert r.supersededBy.None? ==> q in Candidates(r, namers);
  }

  lemma NamedGetsSuperseded(t: Table, item: string, u: seq<Txn>, t2: Table, now: nat, pick: Pick, p: Id, q: Id)
    requires NamedAreSuperseded(t)
    requires OwnRow(t, item, u, t2, p) && OwnRow(t, item, u, t2, q)
    requires p in t2 && q in t2 && p != ""
    requires t2[p].item == t2[q].item && t2[q].cols.pendingRef == Some(p)
    ensures LinkPending(t2, item, u, now, pick)[p].supersededBy.Some?
  {
    var t3 := LinkForward(t2, item, u, now, pick);
    if Last(u, p).Some? {
      assert Last(u, p).value in u;
      assert q in t3 && t3[q].item == item && t3[q].cols == t2[q].cols;
      assert q in StoredNamers(t3, item, u, p);
      RelinkLinks(t3[p], p, StoredNamers(t3, item, u, p), now, pick, q);
    } else if Last(u, q).Some? && t2[q].cols == Last(u, q).value.v.cols {
      RelinkLinks(t2[p], p, DeliveredNamers(u, p), now, pick, q);
    } else {
      assert t[p].supersededBy.Some?;
      LinkKeepsRest(t2, item, u, now, pick, p);
    }
  }

  // ---------------------------------------------------------------- replay

  /** Everything that names p when the batch looks: deliveries, and stored rows if the
      delivery contains p. */
  function Namers(t: Table, item: string, u: seq<Txn>, p: Id): set<Id> {
    DeliveredNamers(u, p) + StoredNamers(t, item, u, p)
  }

  ghost predicate OneNamerEach(t: Table, item: string, u: seq<Txn>) {
    forall p, a, b :: p in t && t[p].item == item && a in Namers(t, item, u, p) && b in Namers(t, item, u, p) ==> a == b
  }

  lemma DeliveredAreStored(t: Table, item: string, u: seq<Txn>, removed: seq<Id>, now: nat, pick: Pick)
    requires DistinctIds(u)
    ensures var t' := ApplyTxns(t, item, u, removed, now, pick);
            forall x :: x in u ==> x.id in t' && t'[x.id].raw == x.v.raw
  {
    var t2 := SoftDelete(UpsertAll(t, item, u, now), item, removed, now);
    var t' := LinkPending(t2, item, u, now, pick);
    forall x | x in u ensures x.id in t' && t'[x.id].raw == x.v.raw {
      LastOfDistinct(u, x);
      UpsertAllKeeps(t, item, u, now, x.id);
      LinkKeepsRest(t2, item, u, now, pick, x.id);
    }
  }

  /** Re-applying a batch writes no payload and removes nothing. */
  lemma ReplayWritesNothing(t: Table, item: string, u: seq<Txn>, removed: seq<Id>, now: nat, now': nat, pick: Pick)
    requires DistinctIds(u)
    ensures var t' := ApplyTxns(t, item, u, removed, now, pick);
            && UpsertAll(t', item, u, now') == t'
            && NewlyRemoved(t', item, removed) == {}
            && SoftDelete(t', item, removed, now') == t'
  {
    var t2 := SoftDelete(UpsertAll(t, item, u, now), item, removed, now);
    var t' := LinkPending(t2, item, u, now, pick);
    DeliveredAreStored(t, item, u, removed, now, pick);
    UpsertsAreStored(t', item, u, now');
    forall id | id in t' && id in removed && t'[id].item == item ensures t'[id].removedAt.Some? {
      LinkKeepsRest(t2, item, u, now, pick, id);
    }
    RemovedStayRemoved(t', item, removed, now');
  }

  lemma RemovedStayRemoved(t: Table, item: string, removed: seq<Id>, now: nat)
    requires forall id :: id in t && id in removed && t[id].item == item ==> t[id].removedAt.Some?
    ensures NewlyRemoved(t, item, removed) == {}
    ensures SoftDelete(t, item, removed, now) == t
  {
  }

  lemma {:induction false} UpsertsAreStored(t: Table, item: string, u: seq<Txn>, now: nat)
    requires forall x :: x in u ==> x.id in t && t[x.id].raw == x.v.raw
    ensures UpsertAll(t, item, u, now) == t
  {
    if u != [] {
      UpsertsAreStored(t, item, u[..|u| - 1], now);
    }
  }

  /** The links of one row settle: after the two statements a row of the item that has one
      namer is linked to it, and a row that has several still has an unlinked one. */
  lemma LinksSettle(t: Table, item: string, u: seq<Txn>, now: nat, pick: Pick, p: Id)
    requires p in t && t[p].item == item && ValidPick(pick)
    ensures var t' := LinkPending(t, item, u, now, pick);
            && Namers(t', item, u, p) == Namers(t, item, u, p)
            && ((forall a, b :: a in Namers(t, item, u, p) && b in Namers(t, item, u, p) ==> a == b)
                <==> Candidates(t'[p], Namers(t', item, u, p)) == {})
  {
    var f := LinkForward(t, item, u, now, pick);
    var t' := LinkPending(t, item, u, now, pick);
    LinksKeepNamers(t, item, u, now, pick, p);
    RelinkTwice(t[p], p, DeliveredNamers(u, p), StoredNamers(t, item, u, p), now, pick);
    assert t'[p] == Relink(f[p], p, StoredNamers(f, item, u, p), now, pick);
  }

  lemma RelinkTwice(r: Row, p: Id, d: set<Id>, s: set<Id>, now: nat, pick: Pick)
    requires ValidPick(pick)
    ensures var r' := Relink(Relink(r, p, d, now, pick), p, s, now, pick);
            (forall a, b :: a in d + s && b in d + s ==> a == b) <==> Candidates(r', d + s) == {}
  {
    var f := Relink(r, p, d, now, pick);
    var r' := Relink(f, p, s, now, pick);
    RelinkPoints(r, p, d, now, pick);
    RelinkPoints(f, p, s, now, pick);
    if Candidates(r', d + s) == {} {
      assert forall a :: a in d + s ==> a !in Candidates(r', d + s);
    }
  }

  /** A row with successors ends up linked to one of them, and otherwise stays. */
  lemma RelinkPoints(r: Row, p: Id, namers: set<Id>, now: nat, pick: Pick)
    requires ValidPick(pick)
    ensures var r' := Relink(r, p, namers, now, pick);
            if namers == {} then r' == r else r'.supersededBy.Some? && r'.supersededBy.value in namers
  {
    if n :| n in namers {
      assert r.supersededBy != Some(n) ==> n in Candidates(r, namers);
    }
  }

  lemma LinksKeepNamers(t: Table, item: string, u: seq<Txn>, now: nat, pick: Pick, p: Id)
    ensures StoredNamers(LinkForward(t, item, u, now, pick), item, u, p) == StoredNamers(t, item, u, p)
    ensures StoredNamers(LinkPending(t, item, u, now, pick), item, u, p) == StoredNamers(t, item, u, p)
  {
  }

  lemma CandidatesSplit(r: Row, d: set<Id>, s: set<Id>)
    ensures Candidates(r, d + s) == {} <==> Candidates(r, d) == {} && Candidates(r, s) == {}
  {
    assert Candidates(r, d + s) == Candidates(r, d) + Candidates(r, s);
  }

  ghost predicate ForwardIsIdle(t: Table, item: string, u: seq<Txn>) {
    forall p :: p in t && t[p].item == item ==> Candidates(t[p], DeliveredNamers(u, p)) == {}
  }

  ghost predicate ReverseIsIdle(t: Table, item: string, u: seq<Txn>) {
    forall p :: p in t && t[p].item == item ==> Candidates(t[p], StoredNamers(t, item, u, p)) == {}
  }

  /** The forward statement reports nothing exactly if it is idle, and then changes nothing. */
  lemma ForwardIdle(t: Table, item: string, u: seq<Txn>, now: nat, pick: Pick)
    ensures |LinkedForward(t, item, u)| == 0 <==> ForwardIsIdle(t, item, u)
    ensures ForwardIsIdle(t, item, u) ==> LinkForward(t, item, u, now, pick) == t
  {
    if |LinkedForward(t, item, u)| == 0 {
      forall p | p in t && t[p].item == item ensures Candidates(t[p], DeliveredNamers(u, p)) == {} {
        assert p !in LinkedForward(t, item, u);
      }
    } else {
      var p :| p in LinkedForward(t, item, u);
    }
  }

  lemma ReverseIdle(t: Table, item: string, u: seq<Txn>, now: nat, pick: Pick)
    ensures |LinkedReverse(t, item, u)| == 0 <==> ReverseIsIdle(t, item, u)
    ensures ReverseIsIdle(t, item, u) ==> LinkReverse(t, item, u, now, pick) == t
  {
    if |LinkedReverse(t, item, u)| == 0 {
      forall p | p in t && t[p].item == item ensures Candidates(t[p], StoredNamers(t, item, u, p)) == {} {
        assert p !in LinkedReverse(t, item, u);
      }
    } else {
      var p :| p in LinkedReverse(t, item, u);
    }
  }

  ghost predicate AllLinked(t: Table, item: string, u: seq<Txn>) {
    forall p :: p in t && t[p].item == item ==> Candidates(t[p], Namers(t, item, u, p)) == {}
  }

  lemma LinkedBothWays(t: Table, item: string, u: seq<Txn>)
    ensures AllLinked(t, item, u) <==> ForwardIsIdle(t, item, u) && ReverseIsIdle(t, item, u)
  {
    forall p | p in t
      ensures Candidates(t[p], Namers(t, item, u, p)) == {} <==>
                Candidates(t[p], DeliveredNamers(u, p)) == {} && Candidates(t[p], StoredNamers(t, item, u, p)) == {}
    {
      CandidatesSplit(t[p], DeliveredNamers(u, p), StoredNamers(t, item, u, p));
    }
  }

  /** The two statements report a link if and only if some row of the item still has an
      unlinked namer, and otherwise they change nothing. */
  lemma NothingToLink(t: Table, item: string, u: seq<Txn>, now: nat, pick: Pick)
    ensures LinkCount(t, item, u, now, pick) == 0 <==> AllLinked(t, item, u)
    ensures LinkCount(t, item, u, now, pick) == 0 ==> LinkPending(t, item, u, now, pick) == t
  {
    LinkedBothWays(t, item, u);
    ForwardIdle(t, item, u, now, pick);
    if ForwardIsIdle(t, item, u) { ReverseIdle(t, item, u, now, pick); }
  }

  /** Replaying a batch reports no superseded row if and only if each stored row of the
      item has at most one namer; then the table is unchanged. Otherwise some link flips,
      whichever choices the database makes. */
  lemma ReplaySupersedes(t: Table, item: string, u: seq<Txn>, removed: seq<Id>, now: nat, pick: Pick, now': nat,
                         pick': Pick)
    requires DistinctIds(u) && ValidPick(pick)
    ensures var t' := ApplyTxns(t, item, u, removed, now, pick);
            && (LinkCount(t', item, u, now', pick') == 0 <==> OneNamerEach(t', item, u))
            && (OneNamerEach(t', item, u) ==> ApplyTxns(t', item, u, removed, now', pick') == t')
  {
    var t2 := SoftDelete(UpsertAll(t, item, u, now), item, removed, now);
    var t' := LinkPending(t2, item, u, now, pick);
    ReplayWritesNothing(t, item, u, removed, now, now', pick);
    NothingToLink(t', item, u, now', pick');
    forall p | p in t' && t'[p].item == item
      ensures (forall a, b :: a in Namers(t', item, u, p) && b in Namers(t', item, u, p) ==> a == b)
         <==> Candidates(t'[p], Namers(t', item, u, p)) == {}
    {
      LinkKeepsRest(t2, item, u, now, pick, p);
      LinksSettle(t2, item, u, now, pick, p);
    }
  }

  lemma DeliveredIsOwn(item: string, u: seq<Txn>, now: nat, pick: Pick, x: Txn)
    requires DistinctIds(u) && x in u
    ensures var t := ApplyTxns(map[], item, u, [], now, pick);
            x.id in t && t[x.id].item == item
  {
    LastOfDistinct(u, x);
    UpsertAllKeeps(map[], item, u, now, x.id);
    LinkKeepsRest(SoftDelete(UpsertAll(map[], item, u, now), item, [], now), item, u, now, pick, x.id);
  }

  /** Two deliveries name a third as their pending row: a replay of the batch moves the link. */
  lemma TwoNamersFlip(item: string, u: seq<Txn>, a: Txn, b: Txn, p: Txn, now: nat, pick: Pick, now': nat, pick': Pick)
    requires DistinctIds(u) && ValidPick(pick) && a in u && b in u && p in u && a.id != b.id && p.id != ""
    requires a.v.cols.pendingRef == Some(p.id) == b.v.cols.pendingRef
    ensures LinkCount(ApplyTxns(map[], item, u, [], now, pick), item, u, now', pick') > 0
  {
    var t := ApplyTxns(map[], item, u, [], now, pick);
    DeliveredIsOwn(item, u, now, pick, p);
    assert a.id in DeliveredNamers(u, p.id) && b.id in DeliveredNamers(u, p.id);
    assert a.id in Namers(t, item, u, p.id) && b.id in Namers(t, item, u, p.id);
    ReplaySupersedes(map[], item, u, [], now, pick, now', pick');
  }

  function Posted(id: Id, ref: Option<Id>): Txn { Keyed(id, Payload(Columns("account", "1", true, ref, ""), id)) }

  /** Two posted transactions and the pending one both name, delivered together. */
  lemma ReplayMovesLink(item: string, now: nat, pick: Pick, now': nat, pick': Pick)
    requires ValidPick(pick)
    ensures var u := [Posted("a", Some("p")), Posted("b", Some("p")), Posted("p", None)];
            LinkCount(ApplyTxns(map[], item, u, [], now, pick), item, u, now', pick') > 0
  {
    var u := [Posted("a", Some("p")), Posted("b", Some("p")), Posted("p", None)];
    assert u[0] in u && u[1] in u && u[2] in u;
    assert u[0].id[0] == 'a' && u[1].id[0] == 'b' && u[2].id[0] == 'p';
    TwoNamersFlip(item, u, u[0], u[1], u[2], now, pick, now', pick');
  }
}
