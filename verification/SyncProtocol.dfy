/** Any number of syncs interleaved with each other and with the item operations: a state
    machine whose every reachable ledger is the change log up to the saved cursor. */
module SyncProtocol {
  import opened Wrappers
  import opened Records
  import opened Ledger
  import opened Links
  import opened Store
  import opened Pagination
  import opened Engine
  import opened PlaidLog

  /** Plaid: a log per item, cursors as positions in it, and one decoder for payloads. */
  datatype Server = Server(logs: map<string, Log>, position: string -> nat, decode: Decoder)

  function LogOf(sv: Server, item: string): Log { if item in sv.logs then sv.logs[item] else [] }

  ghost predicate Sane(sv: Server) {
    && sv.position("") == 0
    && (forall item :: WellFormed(LogOf(sv, item)))
    && (forall item, k :: 0 <= k < |LogOf(sv, item)| && !LogOf(sv, item)[k].Remove? ==>
          LogOf(sv, item)[k].x.id != "" && LogOf(sv, item)[k].x.v.cols == sv.decode(LogOf(sv, item)[k].x.v.raw))
    && (forall i, j, id :: SomeUpserts(LogOf(sv, i), id) && SomeUpserts(LogOf(sv, j), id) ==> i == j)
  }

  function Segment(sv: Server, item: string, p: nat, q: nat): Log
    requires p <= q <= |LogOf(sv, item)|
  {
    LogOf(sv, item)[p..q]
  }

  /** The answer covers the log from the asked cursor to the returned one. */
  ghost predicate Honest(sv: Server, item: string, cursor: string, page: Page) {
    var p, q := sv.position(cursor), sv.position(page.next);
    p <= q <= |LogOf(sv, item)| && Lists(page, Segment(sv, item, p, q))
  }

  /** What the database shows of an id to the item's readers. */
  function Shown(t: Table, item: string, id: Id): Option<Entry> {
    Own(EntryAt(t, id), item)
  }

  function Own(e: Option<Entry>, item: string): Option<Entry> {
    if e.Some? && e.value.item == item then e else None
  }

  function SavedPosition(sv: Server, items: map<string, Item>, item: string): nat
    requires item in items
  {
    sv.position(Origin(items[item]))
  }

  /** The ledger of every item is its log up to its saved cursor. */
  ghost predicate LedgerIsLog(sv: Server, items: map<string, Item>, t: Table) {
    && (forall item :: item in items ==> SavedPosition(sv, items, item) <= |LogOf(sv, item)|)
    && (forall item, id :: item in items ==>
          Shown(t, item, id) == History(LogOf(sv, item)[..SavedPosition(sv, items, item)], item, id))
    && (forall id :: id in t ==> t[id].item in items)
  }

  ghost predicate GoodTable(sv: Server, t: Table) {
    Decoded(t, sv.decode) && NamedAreSuperseded(t) && "" !in t
  }

  /** A row is superseded only by what its item's log named it by, up to the saved cursor. */
  ghost predicate LinksAreLogged(sv: Server, items: map<string, Item>, t: Table) {
    forall p :: p in t && t[p].item in items && t[p].supersededBy.Some? ==>
      OnceNamed(LogOf(sv, t[p].item), SavedPosition(sv, items, t[p].item), t[p].supersededBy.value, p)
  }

  ghost predicate GoodDatabase(sv: Server, db: Database) {
    && LedgerIsLog(sv, db.items, db.txns) && GoodTable(sv, db.txns) && CredentialsMatchStatus(db.items)
    && LinksAreLogged(sv, db.items, db.txns)
  }

  // ---------------------------------------------------------------- one commit

  lemma {:induction false} DeliveredFromLog(sv: Server, item: string, acc: Accumulated, p: nat, q: nat)
    requires Sane(sv) && p <= q <= |LogOf(sv, item)| && Reflects(acc, Segment(sv, item, p, q))
    ensures DecodedAll(Deduped(acc.upserts), sv.decode)
    ensures forall x :: x in Deduped(acc.upserts) ==> x.id != "" && SomeUpserts(LogOf(sv, item), x.id)
  {
    var u, seg, log := Deduped(acc.upserts), Segment(sv, item, p, q), LogOf(sv, item);
    DedupedIsDedupe(acc.upserts);
    forall k | 0 <= k < |u|
      ensures u[k].v.cols == sv.decode(u[k].v.raw) && u[k].id != "" && SomeUpserts(log, u[k].id)
    {
      LastUpsertFacts(seg, u[k].id);
      var j :| 0 <= j < |seg| && !seg[j].Remove? && seg[j].x == u[k];
      assert log[p + j] == seg[j];
      assert Upserts(log[p + j], u[k].id);
    }
  }

  /** A row of another item is never among an item's deliveries. */
  lemma ForeignRows(sv: Server, items: map<string, Item>, t: Table, item: string, id: Id)
    requires Sane(sv) && LedgerIsLog(sv, items, t)
    requires id in t && SomeUpserts(LogOf(sv, item), id)
    ensures t[id].item == item
  {
    var owner := t[id].item;
    var log, n := LogOf(sv, owner), SavedPosition(sv, items, owner);
    assert Shown(t, owner, id).Some?;
    HistoryFacts(log[..n], owner, id);
    var k :| 0 <= k < n && Upserts(log[..n][k], id);
    assert Upserts(log[k], id);
  }

  /** The accumulated pages stand for the item's log between two positions. */
  ghost predicate Covers(sv: Server, item: string, acc: Accumulated, p: nat, q: nat) {
    p <= q <= |LogOf(sv, item)| && Reflects(acc, Segment(sv, item, p, q))
  }

  function Committed(t: Table, item: string, acc: Accumulated, now: nat, pick: Pick): Table {
    ApplyTxns(t, item, Deduped(acc.upserts), acc.removed, now, pick)
  }

  lemma CommittedEntry(sv: Server, t: Table, item: string, acc: Accumulated, p: nat, q: nat, now: nat, pick: Pick,
                       id: Id)
    requires Sane(sv) && Decoded(t, sv.decode) && Covers(sv, item, acc, p, q)
    ensures var seg := Segment(sv, item, p, q);
            EntryAt(Committed(t, item, acc, now, pick), id)
            == Step(EntryAt(t, id), LastUpsert(seg, id), SomeRemoves(seg, id), item)
  {
    DedupedIsDedupe(acc.upserts);
    DedupeKeepsLast(acc.upserts, Deduped(acc.upserts), id);
    DeliveredFromLog(sv, item, acc, p, q);
    BatchEntryAt(t, item, Deduped(acc.upserts), acc.removed, now, pick, sv.decode, id);
  }

  lemma HistoryAdvances(sv: Server, item: string, p: nat, q: nat, id: Id)
    requires Sane(sv) && p <= q <= |LogOf(sv, item)|
    ensures var seg := Segment(sv, item, p, q);
            History(LogOf(sv, item)[..q], item, id)
            == Step(History(LogOf(sv, item)[..p], item, id), LastUpsert(seg, id), SomeRemoves(seg, id), item)
  {
    var log := LogOf(sv, item);
    assert log[..p] + log[p..q] == log[..q];
    SegmentIsStep(log[..p], log[p..q], item, id);
  }

  lemma ForeignUntouched(sv: Server, items: map<string, Item>, t: Table, item: string, p: nat, q: nat, id: Id)
    requires Sane(sv) && LedgerIsLog(sv, items, t) && p <= q <= |LogOf(sv, item)|
    requires id in t && t[id].item != item
    ensures LastUpsert(Segment(sv, item, p, q), id).None?
  {
    var log, seg := LogOf(sv, item), Segment(sv, item, p, q);
    LastUpsertFacts(seg, id);
    if SomeUpserts(seg, id) {
      var k :| 0 <= k < |seg| && Upserts(seg[k], id);
      assert Upserts(log[p + k], id);
      ForeignRows(sv, items, t, item, id);
    }
  }

  lemma StepOwn(e: Option<Entry>, x: Option<Txn>, gone: bool, item: string)
    requires e.Some? && e.value.item != item ==> x.None?
    ensures Own(Step(e, x, gone, item), item) == Step(Own(e, item), x, gone, item)
    ensures forall other :: other != item ==> Own(Step(e, x, gone, item), other) == Own(e, other)
    ensures Step(e, x, gone, item).Some? ==>
              Step(e, x, gone, item).value.item == if e.Some? then e.value.item else item
  {
  }

  /** Applying the batch of a segment moves the item's ledger from one prefix to the next
      and leaves every other item's ledger alone. */
  lemma CommitAdvances(sv: Server, items: map<string, Item>, t: Table, item: string, acc: Accumulated, q: nat,
                       now: nat, pick: Pick, id: Id)
    requires Sane(sv) && LedgerIsLog(sv, items, t) && Decoded(t, sv.decode)
    requires item in items && Covers(sv, item, acc, SavedPosition(sv, items, item), q)
    ensures var t' := Committed(t, item, acc, now, pick);
            && Shown(t', item, id) == History(LogOf(sv, item)[..q], item, id)
            && (forall other :: other != item ==> Shown(t', other, id) == Shown(t, other, id))
            && (id in t' ==> t'[id].item in items)
  {
    var p := SavedPosition(sv, items, item);
    var seg := Segment(sv, item, p, q);
    CommittedEntry(sv, t, item, acc, p, q, now, pick, id);
    HistoryAdvances(sv, item, p, q, id);
    assert Shown(t, item, id) == History(LogOf(sv, item)[..p], item, id);
    if id in t && t[id].item != item {
      ForeignUntouched(sv, items, t, item, p, q, id);
    }
    StepOwn(EntryAt(t, id), LastUpsert(seg, id), SomeRemoves(seg, id), item);
  }

  lemma CommitKeepsLedger(sv: Server, items: map<string, Item>, t: Table, item: string, acc: Accumulated, now: nat,
                          pick: Pick)
    requires Sane(sv) && LedgerIsLog(sv, items, t) && Decoded(t, sv.decode)
    requires item in items && Covers(sv, item, acc, SavedPosition(sv, items, item), sv.position(acc.next))
    requires items[item].status.Syncable()
    ensures LedgerIsLog(sv, CursorSaved(items, item, acc.next, now), Committed(t, item, acc, now, pick))
  {
    var q, t', items' := sv.position(acc.next), Committed(t, item, acc, now, pick),
      CursorSaved(items, item, acc.next, now);
    assert SavedPosition(sv, items', item) == q;
    assert forall other :: other in items && other != item ==>
      SavedPosition(sv, items', other) == SavedPosition(sv, items, other);
    forall other, id | other in items'
      ensures Shown(t', other, id) == History(LogOf(sv, other)[..SavedPosition(sv, items', other)], other, id)
    {
      CommitAdvances(sv, items, t, item, acc, q, now, pick, id);
    }
    forall id | id in t' ensures t'[id].item in items' {
      CommitAdvances(sv, items, t, item, acc, q, now, pick, id);
    }
  }

  lemma CommitKeepsTable(sv: Server, items: map<string, Item>, t: Table, item: string, acc: Accumulated, p: nat, q: nat,
                         now: nat, pick: Pick)
    requires Sane(sv) && LedgerIsLog(sv, items, t) && GoodTable(sv, t) && Covers(sv, item, acc, p, q)
    ensures GoodTable(sv, Committed(t, item, acc, now, pick))
  {
    var u := Deduped(acc.upserts);
    DedupedIsDedupe(acc.upserts);
    DeliveredFromLog(sv, item, acc, p, q);
    BatchIsDecoded(t, item, u, acc.removed, now, pick, sv.decode);
    forall x | x in u && x.id in t ensures t[x.id].item == item {
      ForeignRows(sv, items, t, item, x.id);
    }
    BatchKeepsNamedSuperseded(t, item, u, acc.removed, now, pick);
  }

  lemma {:induction false} DeliveredWasSaid(sv: Server, item: string, acc: Accumulated, p: nat, q: nat, x: Txn, ref: Id)
    requires Sane(sv) && Covers(sv, item, acc, p, q) && x in Deduped(acc.upserts)
    requires x.v.cols.pendingRef == Some(ref)
    ensures OnceNamed(LogOf(sv, item), q, x.id, ref)
  {
    var seg := Segment(sv, item, p, q);
    DedupedIsDedupe(acc.upserts);
    LastUpsertFacts(seg, x.id);
    var j :| 0 <= j < |seg| && !seg[j].Remove? && seg[j].x == x;
    assert LogOf(sv, item)[p + j] == seg[j];
  }

  lemma NamerWasSaid(sv: Server, items: map<string, Item>, t: Table, item: string, acc: Accumulated, now: nat,
                     pick: Pick, q: Id, p: Id)
    requires Sane(sv) && LedgerIsLog(sv, items, t) && Decoded(t, sv.decode)
    requires item in items && Covers(sv, item, acc, SavedPosition(sv, items, item), sv.position(acc.next))
    requires Names(Committed(t, item, acc, now, pick), item, Deduped(acc.upserts), q, p)
    ensures OnceNamed(LogOf(sv, item), sv.position(acc.next), q, p)
  {
    var n := sv.position(acc.next);
    if x :| x in Deduped(acc.upserts) && x.id == q && x.v.cols.pendingRef == Some(p) {
      DeliveredWasSaid(sv, item, acc, SavedPosition(sv, items, item), n, x, p);
    } else {
      CommitAdvances(sv, items, t, item, acc, n, now, pick, q);
      EntryWasSaid(LogOf(sv, item), n, item, q, p);
    }
  }

  lemma CommitKeepsLinks(sv: Server, items: map<string, Item>, t: Table, item: string, acc: Accumulated, now: nat,
                         pick: Pick)
    requires Sane(sv) && LedgerIsLog(sv, items, t) && Decoded(t, sv.decode) && LinksAreLogged(sv, items, t)
    requires item in items && Covers(sv, item, acc, SavedPosition(sv, items, item), sv.position(acc.next))
    requires items[item].status.Syncable() && ValidPick(pick)
    ensures LinksAreLogged(sv, CursorSaved(items, item, acc.next, now), Committed(t, item, acc, now, pick))
  {
    var u, t' := Deduped(acc.upserts), Committed(t, item, acc, now, pick);
    var items' := CursorSaved(items, item, acc.next, now);
    DedupedIsDedupe(acc.upserts);
    BatchLinksRightly(t, item, u, acc.removed, now, pick);
    forall p | p in t' && t'[p].item in items' && t'[p].supersededBy.Some?
      ensures OnceNamed(LogOf(sv, t'[p].item), SavedPosition(sv, items', t'[p].item), t'[p].supersededBy.value, p)
    {
      assert RightlyLinked(t, t', item, u, now, p);
      if t'[p].supersededBy == LinkBy(t, p) {
        BatchKeepsItem(t, item, u, acc.removed, now, pick, p);
      } else {
        NamerWasSaid(sv, items, t, item, acc, now, pick, t'[p].supersededBy.value, p);
      }
    }
  }

  lemma BatchKeepsItem(t: Table, item: string, u: seq<Txn>, removed: seq<Id>, now: nat, pick: Pick, p: Id)
    requires DistinctIds(u) && p in t
    ensures var t' := ApplyTxns(t, item, u, removed, now, pick);
            p in t' && t'[p].item == t[p].item
  {
    UpsertAllKeeps(t, item, u, now, p);
    LinkKeepsRest(SoftDelete(UpsertAll(t, item, u, now), item, removed, now), item, u, now, pick, p);
  }

  /** A committed batch keeps the database good: the ledger is the log up to the new cursor,
      named rows are superseded, payloads decode, credentials match. */
  lemma CommitKeepsGood(sv: Server, db: Database, item: string, acc: Accumulated, accounts: seq<Account>, now: nat,
                        pick: Pick)
    requires Sane(sv) && GoodDatabase(sv, db) && item in db.items && db.items[item].status.Syncable()
    requires Covers(sv, item, acc, SavedPosition(sv, db.items, item), sv.position(acc.next))
    requires ValidPick(pick)
    ensures GoodDatabase(sv, Applied(db, item, BatchOf(acc, accounts), now, pick))
  {
    CommitKeepsLinks(sv, db.items, db.txns, item, acc, now, pick);
    CommitKeepsLedger(sv, db.items, db.txns, item, acc, now, pick);
    CommitKeepsTable(sv, db.items, db.txns, item, acc, SavedPosition(sv, db.items, item), sv.position(acc.next), now,
      pick);
  }

  // ---------------------------------------------------------------- fetching

  /** Every page answers its own request. */
  ghost predicate HonestChain(sv: Server, item: string, orig: string, pages: seq<Page>) {
    pages == [] ||
    var init := pages[..|pages| - 1];
    HonestChain(sv, item, orig, init) && Honest(sv, item, CursorAfter(orig, init, |init|), pages[|pages| - 1])
  }

  lemma PageCovers(sv: Server, item: string, acc: Accumulated, p: nat, cursor: string, page: Page)
    requires Sane(sv) && Honest(sv, item, cursor, page)
    requires Covers(sv, item, acc, p, sv.position(cursor))
    ensures Covers(sv, item, Absorb(acc, page), p, sv.position(page.next))
  {
    var log, m, q := LogOf(sv, item), sv.position(cursor), sv.position(page.next);
    assert log[p..m] + log[m..q] == log[p..q];
    AbsorbExtends(acc, log[p..m], page, log[m..q]);
  }

  /** Pages fetched from an honest server cover the log from the asked cursor. */
  lemma {:induction false} ChainCovers(sv: Server, item: string, orig: string, pages: seq<Page>)
    requires Sane(sv) && sv.position(orig) <= |LogOf(sv, item)| && HonestChain(sv, item, orig, pages)
    ensures Covers(sv, item, AbsorbAll(pages), sv.position(orig), sv.position(CursorAfter(orig, pages, |pages|)))
  {
    if pages == [] {
    } else {
      ChainCovers(sv, item, orig, pages[..|pages| - 1]);
      OneMorePage(sv, item, orig, pages);
    }
  }

  lemma OneMorePage(sv: Server, item: string, orig: string, pages: seq<Page>)
    requires Sane(sv) && pages != [] && HonestChain(sv, item, orig, pages)
    requires var init := pages[..|pages| - 1];
             Covers(sv, item, AbsorbAll(init), sv.position(orig), sv.position(CursorAfter(orig, init, |init|)))
    ensures Covers(sv, item, AbsorbAll(pages), sv.position(orig), sv.position(pages[|pages| - 1].next))
  {
    var init := pages[..|pages| - 1];
    PageCovers(sv, item, AbsorbAll(init), sv.position(orig), CursorAfter(orig, init, |init|), pages[|pages| - 1]);
  }

  lemma FailureKeepsGood(sv: Server, db: Database, id: string, before: Status, outcome: Outcome, failure: Trouble)
    requires GoodDatabase(sv, db)
    ensures GoodDatabase(sv, db.(items := StatusAfterFailure(db.items, id, before, outcome, failure)))
  {
    var items' := StatusAfterFailure(db.items, id, before, outcome, failure);
  }

  function CursorOf(db: Database, id: string): string { if id in db.items then Origin(db.items[id]) else "" }

  /** One call of SyncItem against an honest server keeps the database good, whatever failed
      or was canceled on the way. */
  lemma SyncItemKeepsGood(sv: Server, before: Database, id: string, w: World, cfg: Config, res: SyncResult,
                          after: Database)
    requires Sane(sv) && GoodDatabase(sv, before) && SyncEffect(before, id, w, cfg, res, after)
    requires res.attempts != [] ==> HonestChain(sv, id, CursorOf(before, id), res.attempts[|res.attempts| - 1].pages)
    requires ValidPick(w.pick)
    ensures GoodDatabase(sv, after)
  {
    if res.outcome == Success && !res.notReady {
      var pages := res.attempts[|res.attempts| - 1].pages;
      ChainCovers(sv, id, CursorOf(before, id), pages);
      CommitKeepsGood(sv, before, id, res.pg, w.accounts.value, w.now, w.pick);
    } else if WritesStatus(res, w) {
      FailureKeepsGood(sv, before, id, StatusOf(before.items, id), res.outcome, res.err.value);
    }
  }

  // ---------------------------------------------------------------- interleavings

  /** A sync holding its item's lock: where it started, where it is, what it has. */
  datatype Worker = Idle | Syncing(item: string, orig: string, cursor: string, acc: Accumulated, done: bool,
    status: Status)

  datatype State = State(db: Database, workers: map<nat, Worker>)

  datatype Action =
    | Lock(w: nat, item: string)
    | Fetch(w: nat, page: Page)
    | Restart(w: nat)
    | Release(w: nat)
    | Commit(w: nat, accounts: seq<Account>, now: nat, pick: Pick)
    | Crash
    | Record(run: SyncRun)
    | Link(n: NewItem)
    | Rotate(id: string, c: Credential)
    | SetStatus(id: string, status: Status, error: Option<string>)
    | Remove(id: string)

  ghost predicate Held(s: State, item: string) {
    exists w :: w in s.workers && s.workers[w].Syncing? && s.workers[w].item == item
  }

  ghost predicate Locks(s: State, w: nat, item: string, s': State) {
    && (w in s.workers ==> s.workers[w].Idle?)
    && item in s.db.items && !Held(s, item) && s.db.items[item].status.Syncable()
    && var c := Origin(s.db.items[item]);
       s' == s.(workers := s.workers[w := Syncing(item, c, c, NO_PAGES, false, s.db.items[item].status)])
  }

  ghost predicate Fetches(sv: Server, s: State, w: nat, page: Page, s': State) {
    && w in s.workers && s.workers[w].Syncing? && !s.workers[w].done
    && Honest(sv, s.workers[w].item, s.workers[w].cursor, page) && (page.hasMore ==> page.next != "")
    && var k := s.workers[w];
       s' == s.(workers := s.workers[w := k.(acc := Absorb(k.acc, page), cursor := page.next, done := !page.hasMore)])
  }

  /** A retryable failure drops the pages and starts again from the original cursor. */
  ghost predicate Restarts(s: State, w: nat, s': State) {
    && w in s.workers && s.workers[w].Syncing? && !s.workers[w].done
    && var k := s.workers[w];
       s' == s.(workers := s.workers[w := k.(acc := NO_PAGES, cursor := k.orig)])
  }

  ghost predicate Commits(s: State, w: nat, accounts: seq<Account>, now: nat, pick: Pick, s': State) {
    && w in s.workers && s.workers[w].Syncing? && s.workers[w].done && s.workers[w].acc.next != "" && ValidPick(pick)
    && var k := s.workers[w];
    && Storable(s.db, k.item, BatchOf(k.acc, accounts))
    && s' == State(Applied(s.db, k.item, BatchOf(k.acc, accounts), now, pick), s.workers[w := Idle])
  }

  /** A write of an item's row, which waits for the row lock of a sync in flight. */
  ghost predicate WritesItems(s: State, id: string, items: map<string, Item>, s': State) {
    !Held(s, id) && s' == s.(db := s.db.(items := items))
  }

  ghost predicate Next(sv: Server, s: State, a: Action, s': State) {
    match a
    case Lock(w, item) => Locks(s, w, item, s')
    case Fetch(w, page) => Fetches(sv, s, w, page, s')
    case Restart(w) => Restarts(s, w, s')
    case Release(w) => w in s.workers && s.workers[w].Syncing? && s' == s.(workers := s.workers[w := Idle])
    case Commit(w, accounts, now, pick) => Commits(s, w, accounts, now, pick, s')
    case Crash => s' == s.(workers := map[])
    case Record(run) => s' == s.(db := s.db.(runs := s.db.runs + [run]))
    case Link(n) => n.id != "" && ValidCredential(n.credential) && WritesItems(s, n.id, Relinked(s.db.items, n), s')
    case Rotate(id, c) => ValidCredential(c) && WritesItems(s, id, Rotated(s.db.items, id, c), s')
    case SetStatus(id, status, error) =>
      status != Removed && WritesItems(s, id, StatusSet(s.db.items, id, status, error), s')
    case Remove(id) => WritesItems(s, id, MarkedRemoved(s.db.items, id), s')
  }

  /** What a sync in flight knows is still true: it alone holds the item, the saved cursor is
      the one it started from, and its pages cover the log from there to its own cursor. */
  ghost predicate GoodWorker(sv: Server, db: Database, k: Worker) {
    k.Syncing? ==>
      && k.item in db.items && k.status == db.items[k.item].status && k.status.Syncable()
      && k.orig == Origin(db.items[k.item])
      && Covers(sv, k.item, k.acc, sv.position(k.orig), sv.position(k.cursor))
      && (k.done ==> k.acc.next == k.cursor)
  }

  ghost predicate Exclusive(s: State) {
    forall v, w :: v in s.workers && w in s.workers && s.workers[v].Syncing? && s.workers[w].Syncing? && v != w ==>
      s.workers[v].item != s.workers[w].item
  }

  ghost predicate Inv(sv: Server, s: State) {
    && GoodDatabase(sv, s.db) && Exclusive(s)
    && (forall w :: w in s.workers ==> GoodWorker(sv, s.db, s.workers[w]))
  }

  // ---------------------------------------------------------------- every step keeps it

  lemma LockKeepsInv(sv: Server, s: State, w: nat, item: string, s': State)
    requires Sane(sv) && Inv(sv, s) && Locks(s, w, item, s')
    ensures Inv(sv, s')
  {
  }

  lemma FetchKeepsInv(sv: Server, s: State, w: nat, page: Page, s': State)
    requires Sane(sv) && Inv(sv, s) && Fetches(sv, s, w, page, s')
    ensures Inv(sv, s')
  {
    var k := s.workers[w];
    assert GoodWorker(sv, s.db, k);
    PageCovers(sv, k.item, k.acc, sv.position(k.orig), k.cursor, page);
  }

  lemma RestartKeepsInv(sv: Server, s: State, w: nat, s': State)
    requires Sane(sv) && Inv(sv, s) && Restarts(s, w, s')
    ensures Inv(sv, s')
  {
    var k := s.workers[w];
    assert GoodWorker(sv, s.db, k);
  }

  /** A commit touches one item; a sync of another item knows what it knew. */
  lemma OthersKeepKnowing(sv: Server, s: State, w: nat, accounts: seq<Account>, now: nat, pick: Pick, s': State, v: nat)
    requires Inv(sv, s) && Commits(s, w, accounts, now, pick, s') && v in s.workers && v != w
    ensures GoodWorker(sv, s'.db, s.workers[v])
  {
    assert GoodWorker(sv, s.db, s.workers[v]);
  }

  lemma CommitKeepsWorkers(sv: Server, s: State, w: nat, accounts: seq<Account>, now: nat, pick: Pick, s': State)
    requires Inv(sv, s) && Commits(s, w, accounts, now, pick, s')
    ensures Exclusive(s') && forall v :: v in s'.workers ==> GoodWorker(sv, s'.db, s'.workers[v])
  {
    forall v | v in s'.workers ensures GoodWorker(sv, s'.db, s'.workers[v]) {
      if v != w { OthersKeepKnowing(sv, s, w, accounts, now, pick, s', v); }
    }
  }

  lemma CommitKeepsInv(sv: Server, s: State, w: nat, accounts: seq<Account>, now: nat, pick: Pick, s': State)
    requires Sane(sv) && Inv(sv, s) && Commits(s, w, accounts, now, pick, s')
    ensures Inv(sv, s')
  {
    var k := s.workers[w];
    assert GoodWorker(sv, s.db, k);
    CommitKeepsGood(sv, s.db, k.item, k.acc, accounts, now, pick);
    CommitKeepsWorkers(sv, s, w, accounts, now, pick, s');
  }

  /** An item nobody syncs may change its row as long as its cursor stays. */
  lemma ItemWriteKeepsInv(sv: Server, s: State, id: string, items': map<string, Item>)
    requires Sane(sv) && Inv(sv, s) && !Held(s, id) && CredentialsMatchStatus(items')
    requires items'.Keys == s.db.items.Keys && forall x :: x in items' ==> items'[x].cursor == s.db.items[x].cursor
    requires forall x :: x in items' && x != id ==> items'[x] == s.db.items[x]
    ensures Inv(sv, s.(db := s.db.(items := items')))
  {
    forall w | w in s.workers ensures GoodWorker(sv, s.db.(items := items'), s.workers[w]) {
      assert GoodWorker(sv, s.db, s.workers[w]);
    }
  }

  lemma LinkKeepsInv(sv: Server, s: State, n: NewItem, s': State)
    requires Sane(sv) && Inv(sv, s) && WritesItems(s, n.id, Relinked(s.db.items, n), s')
    ensures Inv(sv, s')
  {
    if n.id in s.db.items {
      ItemWriteKeepsInv(sv, s, n.id, Relinked(s.db.items, n));
    } else {
      NewItemKeepsInv(sv, s, n, s');
    }
  }

  lemma NewItemKeepsInv(sv: Server, s: State, n: NewItem, s': State)
    requires Sane(sv) && Inv(sv, s) && n.id !in s.db.items && WritesItems(s, n.id, Relinked(s.db.items, n), s')
    ensures Inv(sv, s')
  {
    forall w | w in s.workers ensures GoodWorker(sv, s'.db, s.workers[w]) {
      assert GoodWorker(sv, s.db, s.workers[w]);
    }
  }

  lemma RotateKeepsInv(sv: Server, s: State, id: string, c: Credential)
    requires Sane(sv) && Inv(sv, s) && !Held(s, id) && ValidCredential(c)
    ensures Inv(sv, s.(db := s.db.(items := Rotated(s.db.items, id, c))))
  {
    ItemWriteKeepsInv(sv, s, id, Rotated(s.db.items, id, c));
  }

  lemma SetStatusKeepsInv(sv: Server, s: State, id: string, status: Status, error: Option<string>)
    requires Sane(sv) && Inv(sv, s) && !Held(s, id) && status != Removed
    ensures Inv(sv, s.(db := s.db.(items := StatusSet(s.db.items, id, status, error))))
  {
    ItemWriteKeepsInv(sv, s, id, StatusSet(s.db.items, id, status, error));
  }

  lemma RemoveKeepsInv(sv: Server, s: State, id: string)
    requires Sane(sv) && Inv(sv, s) && !Held(s, id)
    ensures Inv(sv, s.(db := s.db.(items := MarkedRemoved(s.db.items, id))))
  {
    ItemWriteKeepsInv(sv, s, id, MarkedRemoved(s.db.items, id));
  }

  /** Every step, whatever it is, keeps the invariant. */
  lemma StepKeepsInv(sv: Server, s: State, a: Action, s': State)
    requires Sane(sv) && Inv(sv, s) && Next(sv, s, a, s')
    ensures Inv(sv, s')
  {
    match a
    case Lock(w, item) => LockKeepsInv(sv, s, w, item, s');
    case Fetch(w, page) => FetchKeepsInv(sv, s, w, page, s');
    case Restart(w) => RestartKeepsInv(sv, s, w, s');
    case Commit(w, accounts, now, pick) => CommitKeepsInv(sv, s, w, accounts, now, pick, s');
    case Link(n) => LinkKeepsInv(sv, s, n, s');
    case Rotate(id, c) => RotateKeepsInv(sv, s, id, c);
    case SetStatus(id, status, error) => SetStatusKeepsInv(sv, s, id, status, error);
    case Remove(id) => RemoveKeepsInv(sv, s, id);
    case _ =>
  }

  // ---------------------------------------------------------------- whole runs

  const EMPTY_DATABASE := Database(map[], map[], map[], [])

  /** Any schedule: states and the actions between them, from the empty database on. */
  ghost predicate Run(sv: Server, states: seq<State>, actions: seq<Action>) {
    && |states| == |actions| + 1 && states[0] == State(EMPTY_DATABASE, map[])
    && (forall i :: 0 <= i < |actions| ==> Next(sv, states[i], actions[i], states[i + 1]))
  }

  /** In every state of every run, the stored ledger of each item is the fold of its change
      log up to the saved cursor, no live row is named by another, and an item is removed
      exactly when its credential is gone. */
  lemma {:induction false} RunsAreGood(sv: Server, states: seq<State>, actions: seq<Action>, i: nat)
    requires Sane(sv) && Run(sv, states, actions) && i < |states|
    ensures Inv(sv, states[i])
  {
    if i > 0 {
      RunsAreGood(sv, states, actions, i - 1);
      StepKeepsInv(sv, states[i - 1], actions[i - 1], states[i]);
    }
  }

  /** The same, spelled out for one id. */
  lemma LedgerIsPrefixOfLog(sv: Server, states: seq<State>, actions: seq<Action>, i: nat, item: string, id: Id)
    requires Sane(sv) && Run(sv, states, actions) && i < |states| && item in states[i].db.items
    ensures var db := states[i].db;
            var p := sv.position(Origin(db.items[item]));
            && p <= |LogOf(sv, item)|
            && (match History(LogOf(sv, item)[..p], item, id)
                case None => id in db.txns ==> db.txns[id].item != item
                case Some(e) => EntryAt(db.txns, id) == Some(e))
    ensures forall q :: q in states[i].db.txns && states[i].db.txns[q].item == item
                        && states[i].db.txns[q].cols.pendingRef == Some(id)
                        && id in states[i].db.txns && states[i].db.txns[id].item == item
                        ==> states[i].db.txns[id].supersededBy.Some?
  {
    RunsAreGood(sv, states, actions, i);
    assert Shown(states[i].db.txns, item, id)
        == History(LogOf(sv, item)[..SavedPosition(sv, states[i].db.items, item)], item, id);
    HistoryFacts(LogOf(sv, item)[..SavedPosition(sv, states[i].db.items, item)], item, id);
  }

  /** In every state of every run a row is superseded only by a stored row of its own item that
      the item's log, up to the saved cursor, said is its posted form. */
  lemma SupersededWereNamed(sv: Server, states: seq<State>, actions: seq<Action>, i: nat, p: Id)
    requires Sane(sv) && Run(sv, states, actions) && i < |states|
    requires p in states[i].db.txns && states[i].db.txns[p].supersededBy.Some?
    ensures var db := states[i].db;
            var item, q := db.txns[p].item, db.txns[p].supersededBy.value;
            && item in db.items && q in db.txns && db.txns[q].item == item
            && OnceNamed(LogOf(sv, item), sv.position(Origin(db.items[item])), q, p)
  {
    RunsAreGood(sv, states, actions, i);
    var db := states[i].db;
    var item, q := db.txns[p].item, db.txns[p].supersededBy.value;
    var log, n := LogOf(sv, item), SavedPosition(sv, db.items, item);
    assert OnceNamed(log, n, q, p);
    var k :| 0 <= k < n <= |log| && Upserts(log[k], q) && log[k].x.v.cols.pendingRef == Some(p);
    UpsertedHasEntry(log, n, item, q, k);
    assert Shown(db.txns, item, q).Some?;
  }

  /** In every run a link changes only in a commit, only within its item, and then to a stored row
      that names the linked one; a row that nothing else names keeps its link and its date. */
  lemma CommitsLinkRightly(sv: Server, states: seq<State>, actions: seq<Action>, i: nat, p: Id)
    requires Sane(sv) && Run(sv, states, actions) && i < |actions| && p in states[i + 1].db.txns
    ensures var t, t', a := states[i].db.txns, states[i + 1].db.txns, actions[i];
            && (LinkBy(t', p) != LinkBy(t, p) || LinkAt(t', p) != LinkAt(t, p) ==>
                  && a.Commit? && a.w in states[i].workers && states[i].workers[a.w].Syncing?
                  && var k := states[i].workers[a.w];
                  && t'[p].item == k.item && RightlyLinked(t, t', k.item, Deduped(k.acc.upserts), a.now, p))
            && (LinkBy(t', p) != LinkBy(t, p) ==>
                  && t'[p].supersededBy.Some?
                  && var q := t'[p].supersededBy.value;
                     q in t' && t'[q].item == t'[p].item && t'[q].cols.pendingRef == Some(p))
  {
    var s, a, s' := states[i], actions[i], states[i + 1];
    RunsAreGood(sv, states, actions, i);
    if a.Commit? {
      CommitLinksRightly(sv, s, a.w, a.accounts, a.now, a.pick, s', p);
    } else {
      OtherKeepsRows(sv, s, a, s');
    }
  }

  lemma OtherKeepsRows(sv: Server, s: State, a: Action, s': State)
    requires Next(sv, s, a, s') && !a.Commit?
    ensures s'.db.txns == s.db.txns && s'.db.accounts == s.db.accounts
  {
  }

  lemma CommitLinksRightly(sv: Server, s: State, w: nat, accounts: seq<Account>, now: nat, pick: Pick, s': State, p: Id)
    requires Sane(sv) && Inv(sv, s) && Commits(s, w, accounts, now, pick, s') && p in s'.db.txns
    ensures var t, t', k := s.db.txns, s'.db.txns, s.workers[w];
            && RightlyLinked(t, t', k.item, Deduped(k.acc.upserts), now, p)
            && (LinkBy(t', p) != LinkBy(t, p) ==>
                  && t'[p].item == k.item && t'[p].supersededBy.Some?
                  && var q := t'[p].supersededBy.value;
                     q in t' && t'[q].item == k.item && t'[q].cols.pendingRef == Some(p))
  {
    var t, k := s.db.txns, s.workers[w];
    var u := Deduped(k.acc.upserts);
    assert GoodWorker(sv, s.db, k);
    DedupedIsDedupe(k.acc.upserts);
    DeliveredFromLog(sv, k.item, k.acc, sv.position(k.orig), sv.position(k.cursor));
    forall x | x in u && x.id in t ensures t[x.id].item == k.item { ForeignRows(sv, s.db.items, t, k.item, x.id); }
    BatchLinksRightly(t, k.item, u, k.acc.removed, now, pick);
    NewLinksAreNamed(t, k.item, u, k.acc.removed, now, pick, sv.decode, p);
  }

  /** What a commit does to the items: its own gets a later cursor and is active, having been
      active or in error when its sync took the lock and still; the others stay. */
  lemma CommitEffects(sv: Server, s: State, w: nat, accounts: seq<Account>, now: nat, pick: Pick, s': State)
    requires Inv(sv, s) && Commits(s, w, accounts, now, pick, s')
    ensures var id := s.workers[w].item;
            && s'.db.items.Keys == s.db.items.Keys && id in s.db.items
            && s.workers[w].status == s.db.items[id].status && s.db.items[id].status in {Active, Error}
            && s'.db.items[id].status == Active
            && SavedPosition(sv, s.db.items, id) <= SavedPosition(sv, s'.db.items, id)
            && (forall x :: x in s.db.items && x != id ==> s'.db.items[x] == s.db.items[x])
  {
    assert GoodWorker(sv, s.db, s.workers[w]);
  }

  /** Only relinking brings a removed item back; a saved cursor never moves back, and moves
      only in a commit of its own item's sync, found active or in error under the lock; so do
      rows and accounts. */
  lemma StepEffects(sv: Server, s: State, a: Action, s': State, item: string)
    requires Inv(sv, s) && Next(sv, s, a, s') && item in s.db.items
    ensures item in s'.db.items
    ensures s.db.items[item].status == Removed && s'.db.items[item].status != Removed ==> a.Link? && a.n.id == item
    ensures SavedPosition(sv, s.db.items, item) <= SavedPosition(sv, s'.db.items, item)
    ensures s'.db.items[item].cursor != s.db.items[item].cursor ==>
              a.Commit? && s.workers[a.w].Syncing? && s.workers[a.w].item == item
                && s.db.items[item].status in {Active, Error}
    ensures s'.db.txns != s.db.txns || s'.db.accounts != s.db.accounts ==>
              a.Commit? && s.workers[a.w].Syncing? && s.workers[a.w].status in {Active, Error}
  {
    if a.Commit? {
      CommitEffects(sv, s, a.w, a.accounts, a.now, a.pick, s');
    } else {
      OtherEffects(sv, s, a, s', item);
    }
  }

  lemma OtherEffects(sv: Server, s: State, a: Action, s': State, item: string)
    requires Next(sv, s, a, s') && item in s.db.items && !a.Commit?
    ensures item in s'.db.items && s'.db.txns == s.db.txns && s'.db.accounts == s.db.accounts
    ensures s'.db.items[item].cursor == s.db.items[item].cursor
    ensures s.db.items[item].status == Removed && s'.db.items[item].status != Removed ==> a.Link? && a.n.id == item
  {
  }

  lemma {:induction false} CursorsOnlyAdvance(sv: Server, states: seq<State>, actions: seq<Action>, i: nat, j: nat,
                                              item: string)
    requires Sane(sv) && Run(sv, states, actions) && i <= j < |states| && item in states[i].db.items
    ensures item in states[j].db.items
    ensures SavedPosition(sv, states[i].db.items, item) <= SavedPosition(sv, states[j].db.items, item)
  {
    if i < j {
      CursorsOnlyAdvance(sv, states, actions, i, j - 1, item);
      NextAdvances(sv, states, actions, j - 1, item);
    }
  }

  lemma NextAdvances(sv: Server, states: seq<State>, actions: seq<Action>, i: nat, item: string)
    requires Sane(sv) && Run(sv, states, actions) && i < |actions| && item in states[i].db.items
    ensures item in states[i + 1].db.items
    ensures SavedPosition(sv, states[i].db.items, item) <= SavedPosition(sv, states[i + 1].db.items, item)
  {
    RunsAreGood(sv, states, actions, i);
    StepEffects(sv, states[i], actions[i], states[i + 1], item);
  }
}
