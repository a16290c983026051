/** SyncItem: one locked, all-or-nothing sync of one item, classified into its outcome. */
module Engine {
  import opened Wrappers
  import opened Ledger
  import opened Store
  import opened Pagination

  /** Everything a run depends on outside the database: what Plaid answers, which waits are
      cut short, which writes the database refuses, and the clock. */
  datatype World = World(
    beginFault: bool, credentialFault: bool, decryptOk: bool,
    script: seq<Answer>, naps: seq<bool>, jitters: seq<real>,
    accounts: Result<seq<Account>, Failure>,
    applyFault: Option<nat>, recordFault: bool, commitFault: bool, dbCanceled: bool, lateFault: bool, statusFault: bool,
    now: nat, pick: Pick)

  ghost predicate ValidWorld(w: World, cfg: Config) {
    && ValidConfig(cfg) && |w.naps| >= cfg.maxAttempts && |w.jitters| >= cfg.maxAttempts
    && (forall k :: 0 <= k < |w.jitters| ==> 0.5 <= w.jitters[k] < 1.5)
  }

  /** The error of a failed run: Plaid's, a decryption failure, or the database's. */
  datatype Trouble = FromPlaid(failure: Failure) | Undecryptable | FromStore(error: StoreError)

  datatype SyncResult = SyncResult(outcome: Outcome, err: Option<Trouble>, skipped: bool, notReady: bool,
                                   attempts: seq<Attempt>, pg: Accumulated, apply: ApplyResult)

  const UNTRIED := SyncResult(Failed, None, false, false, [], NO_PAGES, NOTHING_APPLIED)

  function OutcomeOf(kind: Class): Outcome {
    match kind
    case ClassRetryable => RetryableError
    case ClassNeedsReauth => NeedsReauth
    case ClassFatal => Fatal
    case ClassCanceled => Canceled
    case ClassError => Failed
  }

  /** Which re-auth state a needs-reauth error asks for. */
  function ReauthStatus(code: string): Status {
    if code in {"PENDING_EXPIRATION", "PENDING_DISCONNECT"} then PendingExpiration
    else if code in {"USER_PERMISSION_REVOKED", "ACCESS_NOT_GRANTED"} then PermissionRevoked
    else LoginRequired
  }

  function Origin(item: Item): string { if item.cursor.Some? then item.cursor.value else "" }

  function BatchOf(pg: Accumulated, accounts: seq<Account>): SyncBatch {
    SyncBatch(accounts, pg.upserts, pg.removed, pg.next, pg.added, pg.modified)
  }

  /** How the locked part of a run can end. */
  datatype Ending = Recorded(failure: Option<Trouble>) | RolledBack(cause: Trouble) {
    function PlaidFailure(): Option<Failure> {
      match this
      case Recorded(Some(FromPlaid(f))) => Some(f)
      case RolledBack(FromPlaid(f)) => Some(f)
      case _ => None
    }
  }

  /** The locked part keeps the work a no-op but for the audit row, unless it succeeded on a
      complete chain with a cursor; then the work is exactly that chain's batch. */
  ghost predicate LockedEffect(before: Database, id: string, w: World, cfg: Config, res: SyncResult, after: Database) {
    if res.outcome == Success && !res.notReady then
      && id in before.items && before.items[id].status.Syncable()
      && res.attempts != [] && Complete(Origin(before.items[id]), res.attempts[|res.attempts| - 1])
      && res.pg == AbsorbAll(res.attempts[|res.attempts| - 1].pages) && res.pg.next != ""
      && w.accounts.Ok?
      && after.(runs := before.runs) == Applied(before, id, BatchOf(res.pg, w.accounts.value), w.now, w.pick)
      && CountsOf(res.apply, before, id, BatchOf(res.pg, w.accounts.value), w.now, w.pick)
    else after.(runs := before.runs) == before
  }

  // ---------------------------------------------------------------- when a sync succeeds

  /** The lock can be had: the item is there and nobody else holds it. */
  predicate Opens(db: Database, locks: set<string>, id: string, w: World) {
    id != "" && !w.beginFault && id !in locks && id in db.items
  }

  /** The item may be synced and its token can be read. */
  predicate Reaches(item: Item, w: World) {
    item.status.Syncable() && !w.credentialFault && item.blob.Some? && w.decryptOk
  }

  /** The run gets as far as asking Plaid. */
  predicate Pulls(db: Database, locks: set<string>, id: string, w: World) {
    Opens(db, locks, id, w) && Reaches(db.items[id], w)
  }

  function Sent(w: World, cfg: Config): Delivery
    requires cfg.maxAttempts >= 1 && |w.naps| >= cfg.maxAttempts
  {
    Delivered(w.script, 0, w.naps, 1, cfg)
  }

  /** The pages of the last attempt, accumulated. */
  function Pulled(w: World, cfg: Config): Accumulated
    requires cfg.maxAttempts >= 1 && |w.naps| >= cfg.maxAttempts
  {
    AbsorbAll(Sent(w, cfg).pages)
  }

  /** Plaid delivered a whole chain without a cursor: the item's history is not there yet. */
  predicate DeliversNothing(w: World, cfg: Config)
    requires cfg.maxAttempts >= 1 && |w.naps| >= cfg.maxAttempts
  {
    Sent(w, cfg).failure.None? && Pulled(w, cfg).next == ""
  }

  /** Plaid delivered a whole chain and the accounts, and the database takes the batch. */
  predicate DeliversBatch(db: Database, id: string, w: World, cfg: Config)
    requires cfg.maxAttempts >= 1 && |w.naps| >= cfg.maxAttempts
  {
    && Sent(w, cfg).failure.None? && Pulled(w, cfg).next != "" && w.accounts.Ok?
    && Storable(db, id, BatchOf(Pulled(w, cfg), w.accounts.value))
    && !Strikes(w.applyFault, BatchOf(Pulled(w, cfg), w.accounts.value))
  }

  predicate Delivers(db: Database, id: string, w: World, cfg: Config)
    requires cfg.maxAttempts >= 1 && |w.naps| >= cfg.maxAttempts
  {
    DeliversNothing(w, cfg) || DeliversBatch(db, id, w, cfg)
  }

  /** What Plaid fails with: the pull, or the accounts asked for after it. */
  function PlaidFailure(w: World, cfg: Config): Option<Failure>
    requires cfg.maxAttempts >= 1 && |w.naps| >= cfg.maxAttempts
  {
    if Sent(w, cfg).failure.Some? then Sent(w, cfg).failure
    else if Pulled(w, cfg).next != "" && w.accounts.Err? then Some(w.accounts.error)
    else None
  }

  /** The item has no credential at all. */
  predicate Keyless(item: Item, w: World) { item.status.Syncable() && !w.credentialFault && item.blob.None? }

  function ErrorOfPlaid(err: Option<Trouble>): Option<Failure> {
    if err.Some? && err.value.FromPlaid? then Some(err.value.failure) else None
  }

  /** Plaid's failure, unless it is to be recorded and the database fails at that. */
  function Outlasts(failure: Option<Failure>, w: World): Option<Failure> {
    if failure.Some? && failure.value.kind != ClassCanceled && (w.recordFault || w.commitFault) then None else failure
  }

  /** The item has a credential that does not decrypt. */
  predicate Garbled(item: Item, w: World) {
    item.status.Syncable() && !w.credentialFault && item.blob.Some? && !w.decryptOk
  }

  /** The outcome an error is filed under; `canceled` is that of the database's own errors. */
  function OutcomeFor(t: Trouble, canceled: bool): Outcome {
    match t
    case FromPlaid(f) => OutcomeOf(f.kind)
    case Undecryptable => Fatal
    case FromStore(ItemLocked) => Locked
    case FromStore(NotFound) => Failed
    case FromStore(_) => if canceled then Canceled else Failed
  }

  // ---------------------------------------------------------------- the audit row

  /** The saved cursor, if the item is reached. */
  function CursorBefore(db: Database, locks: set<string>, id: string, w: World): Option<string> {
    if Opens(db, locks, id, w) then db.items[id].cursor else None
  }

  /** The row of a run of an item that had this cursor. */
  function RowOf(id: string, cursor: Option<string>, res: SyncResult): SyncRun {
    var after := if res.outcome != Success then None else if res.notReady then cursor else Some(res.pg.next);
    SyncRun(id, res.outcome, cursor, after, res.pg.pages)
  }

  /** What the locked part writes: its row, unless the item is skipped or the write fails. */
  function Logged(runs: seq<SyncRun>, id: string, cursor: Option<string>, res: SyncResult, w: World): seq<SyncRun> {
    if res.skipped || w.recordFault then runs else runs + [RowOf(id, cursor, res)]
  }

  /** Runs that leave their row for certain: a success, and what Plaid or the key refused. */
  predicate LeavesRow(res: SyncResult) {
    || res.outcome == Success
    || (res.err.Some? && !res.err.value.FromStore? && res.outcome != Canceled)
  }

  /** Runs without a row: canceled, without an item, or skipped. */
  predicate LeavesNoRow(res: SyncResult) {
    || res.outcome == Canceled || res.err == Some(FromStore(NotFound))
    || (res.err.None? && res.outcome != Success)
  }

  /** The one row a call may add says what the call returned. */
  ghost predicate Audited(before: Database, after: Database, id: string, cursor: Option<string>, res: SyncResult) {
    && (after.runs == before.runs || after.runs == before.runs + [RowOf(id, cursor, res)])
    && (LeavesRow(res) ==> after.runs == before.runs + [RowOf(id, cursor, res)])
    && (LeavesNoRow(res) ==> after.runs == before.runs)
  }

  /** The outcome of an item that is not to be synced. */
  function SkipOutcome(status: Status): Outcome { if status == Removed then Fatal else NeedsReauth }

  class Engine {
    const store: Store
    const cfg: Config

    constructor (s: Store, c: Config)
      requires ValidConfig(c)
      ensures store == s && cfg == c
    {
      store := s;
      cfg := c;
    }

    /** recordFailure and recordRun: the audit row goes into the open transaction. */
    method Record(tx: ItemTx, run: SyncRun, fault: bool)
      modifies tx`work
      ensures tx.work == if fault then old(tx.work) else old(tx.work).(runs := old(tx.work).runs + [run])
    {
      if !fault { tx.work := tx.work.(runs := tx.work.runs + [run]); }
    }

    /** From complete pages to an applied batch and its audit row. */
    method ApplyPages(tx: ItemTx, w: World, r: SyncResult) returns (res: SyncResult, ending: Ending)
      requires tx.itemID in tx.work.items && tx.item == tx.work.items[tx.itemID]
      requires tx.item.status.Syncable()
      requires r.pg.next != "" && r.err.None? && !r.skipped && !r.notReady && r.outcome == Failed
      modifies tx
      ensures res.outcome == Success <==>
        && w.accounts.Ok? && !w.recordFault && Storable(old(tx.work), tx.itemID, BatchOf(r.pg, w.accounts.value))
        && !Strikes(w.applyFault, BatchOf(r.pg, w.accounts.value))
      ensures Ends(res, ending) && !res.skipped && !res.notReady && res.attempts == r.attempts && res.pg == r.pg
      ensures ending.PlaidFailure() == if w.accounts.Err? then Some(w.accounts.error) else None
      ensures ending != Recorded(Some(Undecryptable)) && ending != RolledBack(FromStore(NotFound))
      ensures res.outcome == Success ==>
                && w.accounts.Ok? && ending == Recorded(None)
                && tx.work.(runs := old(tx.work).runs)
                   == Applied(old(tx.work), tx.itemID, BatchOf(r.pg, w.accounts.value), w.now, w.pick)
                && CountsOf(res.apply, old(tx.work), tx.itemID, BatchOf(r.pg, w.accounts.value), w.now, w.pick)
      ensures res.outcome != Success && ending.Recorded? ==> tx.work.(runs := old(tx.work).runs) == old(tx.work)
      ensures ending.Recorded? ==> tx.work.runs == Logged(old(tx.work.runs), tx.itemID, old(tx.item).cursor, res, w)
    {
      res := r;
      var cursor := tx.item.cursor;
      if w.accounts.Err? {
        var failure := w.accounts.error;
        res := res.(outcome := OutcomeOf(failure.kind));
        if failure.kind == ClassCanceled { return res, RolledBack(FromPlaid(failure)); }
        Record(tx, SyncRun(tx.itemID, res.outcome, cursor, None, r.pg.pages), w.recordFault);
        return res, Recorded(Some(FromPlaid(failure)));
      }
      var applied := tx.ApplySyncBatch(BatchOf(r.pg, w.accounts.value), w.now, w.pick, w.applyFault);
      if applied.Err? { return res, RolledBack(FromStore(applied.error)); }
      res := res.(apply := applied.value);
      if w.recordFault { return res, RolledBack(FromStore(QueryFailed)); }
      Record(tx, SyncRun(tx.itemID, Success, cursor, Some(r.pg.next), r.pg.pages), false);
      return res.(outcome := Success), Recorded(None);
    }

    method Drain(w: World, orig: string) returns (d: Drained)
      requires ValidWorld(w, cfg)
      ensures d.attempts != []
      ensures d.pg == Pulled(w, cfg) && d.failure == Sent(w, cfg).failure
      ensures d.failure.None? ==>
                Complete(orig, d.attempts[|d.attempts| - 1]) && d.pg == AbsorbAll(d.attempts[|d.attempts| - 1].pages)
    {
      d := Paginate(w.script, w.naps, w.jitters, orig, cfg);
    }

    /** From the decrypted token on: paginate, then apply what came. */
    method FetchAndApply(tx: ItemTx, w: World) returns (res: SyncResult, ending: Ending)
      requires ValidWorld(w, cfg)
      requires tx.itemID in tx.work.items && tx.item == tx.work.items[tx.itemID] && tx.item.status.Syncable()
      modifies tx
      ensures ending.Recorded? ==> LockedEffect(old(tx.work), tx.itemID, w, cfg, res, tx.work)
      ensures ending.Recorded? ==> tx.work.runs == Logged(old(tx.work.runs), tx.itemID, old(tx.item).cursor, res, w)
      ensures Ends(res, ending) && !res.skipped && res.pg == Pulled(w, cfg)
      ensures ending.PlaidFailure() == PlaidFailure(w, cfg)
      ensures ending != Recorded(Some(Undecryptable)) && ending != RolledBack(FromStore(NotFound))
      ensures res.attempts != []
      ensures res.notReady <==> DeliversNothing(w, cfg)
      ensures !w.recordFault ==> (res.outcome == Success <==> Delivers(old(tx.work), tx.itemID, w, cfg))
    {
      var item := tx.item;
      var d := Drain(w, Origin(item));
      res := UNTRIED.(attempts := d.attempts, pg := d.pg);
      if d.failure.Some? {
        var failure := d.failure.value;
        res := res.(outcome := OutcomeOf(failure.kind));
        if failure.kind == ClassCanceled { return res, RolledBack(FromPlaid(failure)); }
        Record(tx, SyncRun(tx.itemID, res.outcome, item.cursor, None, d.pg.pages), w.recordFault);
        return res, Recorded(Some(FromPlaid(failure)));
      }
      if d.pg.next == "" {
        Record(tx, SyncRun(tx.itemID, Success, item.cursor, item.cursor, d.pg.pages), w.recordFault);
        return res.(outcome := Success, notReady := true), Recorded(None);
      }
      res, ending := ApplyPages(tx, w, res);
    }

    /** The callback under the item lock. */
    method RunLocked(tx: ItemTx, w: World) returns (res: SyncResult, ending: Ending)
      requires ValidWorld(w, cfg)
      requires tx.itemID in tx.work.items && tx.item == tx.work.items[tx.itemID]
      modifies tx
      ensures ending.Recorded? ==> LockedEffect(old(tx.work), tx.itemID, w, cfg, res, tx.work)
      ensures ending.Recorded? ==> tx.work.runs == Logged(old(tx.work.runs), tx.itemID, old(tx.item).cursor, res, w)
      ensures Ends(res, ending) && (res.skipped <==> !old(tx.item).status.Syncable())
      ensures res.skipped ==> res.outcome == SkipOutcome(old(tx.item).status)
      ensures Reaches(old(tx.item), w) ==> res.pg == Pulled(w, cfg)
      ensures res.attempts != [] <==> Reaches(old(tx.item), w)
      ensures ending.PlaidFailure() == if Reaches(old(tx.item), w) then PlaidFailure(w, cfg) else None
      ensures ending == Recorded(Some(Undecryptable)) <==> Garbled(old(tx.item), w)
      ensures ending == RolledBack(FromStore(NotFound)) <==> Keyless(old(tx.item), w)
      ensures res.notReady <==> Reaches(old(tx.item), w) && DeliversNothing(w, cfg)
      ensures !w.recordFault ==>
                (res.outcome == Success <==> Reaches(old(tx.item), w) && Delivers(old(tx.work), tx.itemID, w, cfg))
    {
      var item := tx.item;
      if !item.status.Syncable() {
        res := UNTRIED.(skipped := true, outcome := SkipOutcome(item.status));
        return res, Recorded(None);
      }
      if w.credentialFault || item.blob.None? {
        return UNTRIED, RolledBack(FromStore(if w.credentialFault then QueryFailed else NotFound));
      }
      if !w.decryptOk {
        Record(tx, SyncRun(tx.itemID, Fatal, item.cursor, None, 0), w.recordFault);
        return UNTRIED.(outcome := Fatal), Recorded(Some(Undecryptable));
      }
      res, ending := FetchAndApply(tx, w);
    }

    method SetItemStatusAfterFailure(id: string, before: Status, outcome: Outcome, failure: Trouble, fault: bool)
      modifies store`db
      ensures store.db == old(store.db).(items := store.db.items)
      ensures store.db.items == if fault then old(store.db).items
                                else StatusAfterFailure(old(store.db).items, id, before, outcome, failure)
    {
      var status := FailureStatus(before, outcome, failure);
      if status == Removed || fault { return; }
      var _ := store.SetItemStatus(id, status, Some(ErrorText(failure)));
    }

    /** The audit row outside the transaction, and the error status. */
    method FileRollback(id: string, before: Status, cursor: Option<string>, res: SyncResult, cause: Trouble,
                        runRecorded: bool, w: World)
      requires res.outcome != Success
      modifies store`db
      ensures store.db == old(store.db).(items := store.db.items, runs := store.db.runs)
      ensures store.db.runs == if runRecorded || w.lateFault then old(store.db).runs
                               else old(store.db).runs + [RowOf(id, cursor, res)]
      ensures store.db.items == if res.outcome == Failed && !w.statusFault
                                then StatusAfterFailure(old(store.db).items, id, before, Failed, cause)
                                else old(store.db).items
    {
      if !runRecorded && !w.lateFault {
        store.RecordSyncRun(SyncRun(id, res.outcome, cursor, None, res.pg.pages));
      }
      if res.outcome == Failed {
        SetItemStatusAfterFailure(id, before, Failed, cause, w.statusFault);
      }
    }

    /** A run whose transaction did not commit: classify the error, leave the audit row
        outside, and move the item to its error status. */
    method AfterRollback(id: string, before: Status, cursor: Option<string>, r: SyncResult, cause: Trouble,
                         runRecorded: bool, w: World)
      returns (res: SyncResult)
      requires r.outcome == Canceled <==> !cause.FromStore?
      requires !cause.FromStore? ==> OutcomeFor(cause, w.dbCanceled) == Canceled
      modifies store`db
      ensures res == r.(err := Some(cause), outcome := res.outcome)
      ensures res.outcome == OutcomeFor(cause, w.dbCanceled)
      ensures store.db == old(store.db).(items := store.db.items, runs := store.db.runs)
      ensures Audited(old(store.db), store.db, id, cursor, res)
      ensures store.db.items == if WritesStatus(res, w)
                                then StatusAfterFailure(old(store.db).items, id, before, Failed, cause)
                                else old(store.db).items
    {
      res := r.(err := Some(cause));
      if cause == FromStore(ItemLocked) {
        res := res.(outcome := Locked);
      } else if cause == FromStore(NotFound) {
        return res.(outcome := Failed);
      } else if r.outcome == Canceled || w.dbCanceled {
        return res.(outcome := Canceled);
      } else {
        res := res.(outcome := Failed);
      }
      FileRollback(id, before, cursor, res, cause, runRecorded, w);
    }

    /** Syncs one item. Whatever happens the lock is free again, and the ledger, the accounts
        and every cursor are as before unless the run succeeded on a complete chain of pages
        from the saved cursor, in which case exactly that chain was applied. It succeeds exactly
        when the lock and the token can be had, Plaid delivers, and no write fails. What Plaid
        failed with is the error, unless the database then fails too; the error decides the
        outcome, and the audit row repeats what the call returns. An error is absent without a
        success exactly for an item whose status, read under the lock, is neither active nor
        error, unless the empty commit fails. */
    method SyncItem(id: string, w: World) returns (res: SyncResult)
      requires ValidWorld(w, cfg)
      modifies store
      ensures store.locks == old(store.locks)
      ensures SyncEffect(old(store.db), id, w, cfg, res, store.db)
      ensures Audited(old(store.db), store.db, id, CursorBefore(old(store.db), old(store.locks), id, w), res)
      ensures res.err.Some? ==> res.outcome == OutcomeFor(res.err.value, w.dbCanceled)
      ensures FiledRightly(old(store.db).items, id, res, w, store.db.items)
      ensures res.attempts != [] <==> Pulls(old(store.db), old(store.locks), id, w)
      ensures res.skipped <==>
        Opens(old(store.db), old(store.locks), id, w) && !old(store.db).items[id].status.Syncable()
      ensures ErrorOfPlaid(res.err) ==
              if Pulls(old(store.db), old(store.locks), id, w) then Outlasts(PlaidFailure(w, cfg), w) else None
      ensures res.err == Some(Undecryptable) <==>
        && Opens(old(store.db), old(store.locks), id, w) && Garbled(old(store.db).items[id], w)
        && !w.recordFault && !w.commitFault
      ensures res.err == Some(FromStore(NotFound)) <==>
        && id != "" && !w.beginFault && id !in old(store.locks)
        && (id in old(store.db).items ==> Keyless(old(store.db).items[id], w))
      ensures res.outcome == Locked <==> (id != "" && !w.beginFault && id in old(store.locks))
      ensures res.outcome == Success <==>
        && Pulls(old(store.db), old(store.locks), id, w)
        && Delivers(old(store.db), id, w, cfg) && !w.recordFault && !w.commitFault
      ensures res.notReady <==>
        && Pulls(old(store.db), old(store.locks), id, w)
        && DeliversNothing(w, cfg)
      ensures res.outcome == Success ==> res.pg == Pulled(w, cfg) && res.err.None?
      ensures res.err.None? && res.outcome != Success <==>
        && Opens(old(store.db), old(store.locks), id, w) && !old(store.db).items[id].status.Syncable() && !w.commitFault
      ensures res.err.None? && res.outcome != Success ==> res.outcome == SkipOutcome(old(store.db).items[id].status)
    {
      var begun := store.BeginItem(id, w.beginFault);
      if begun.Err? {
        res := AfterRollback(id, Error, None, UNTRIED, FromStore(begun.error), false, w);
      } else {
        res := SyncHeld(begun.value, w);
      }
      FiledByCause(old(store.db), id, w, cfg, res, store.db);
    }

    /** The rest of the sync, the item's lock being held. */
    method SyncHeld(tx: ItemTx, w: World) returns (res: SyncResult)
      requires ValidWorld(w, cfg)
      requires tx.itemID in store.locks && tx.itemID in store.db.items
      requires tx.work == store.db && tx.item == store.db.items[tx.itemID]
      modifies store, tx
      ensures store.locks == old(store.locks) - {tx.itemID}
      ensures SyncEffect(old(store.db), tx.itemID, w, cfg, res, store.db)
      ensures Audited(old(store.db), store.db, tx.itemID, old(tx.item).cursor, res) && res.outcome != Locked
      ensures res.err.Some? ==> res.outcome == OutcomeFor(res.err.value, w.dbCanceled)
      ensures res.attempts != [] <==> Reaches(old(tx.item), w)
      ensures res.skipped <==> !old(tx.item).status.Syncable()
      ensures ErrorOfPlaid(res.err) == if Reaches(old(tx.item), w) then Outlasts(PlaidFailure(w, cfg), w) else None
      ensures res.err == Some(Undecryptable) <==> Garbled(old(tx.item), w) && !w.recordFault && !w.commitFault
      ensures res.err == Some(FromStore(NotFound)) <==> Keyless(old(tx.item), w)
      ensures res.outcome == Success <==>
        && Reaches(old(tx.item), w) && Delivers(old(store.db), tx.itemID, w, cfg) && !w.recordFault && !w.commitFault
      ensures res.notReady <==> Reaches(old(tx.item), w) && DeliversNothing(w, cfg)
      ensures res.outcome == Success ==> res.pg == Pulled(w, cfg) && res.err.None?
      ensures res.err.None? && res.outcome != Success <==> !old(tx.item).status.Syncable() && !w.commitFault
      ensures res.err.None? && res.outcome != Success ==> res.outcome == SkipOutcome(old(tx.item).status)
    {
      var before, cursor := tx.item.status, tx.item.cursor;
      var r, ending := RunLocked(tx, w);
      res := Conclude(tx, before, cursor, r, ending, w);
    }

    method RollBack(tx: ItemTx, before: Status, cursor: Option<string>, r: SyncResult, cause: Trouble,
                    runRecorded: bool, w: World)
      returns (res: SyncResult)
      requires tx.itemID in store.locks && before == StatusOf(store.db.items, tx.itemID)
      requires r.outcome == Canceled <==> !cause.FromStore?
      requires !cause.FromStore? ==> OutcomeFor(cause, w.dbCanceled) == Canceled
      requires cause != FromStore(ItemLocked)
      modifies store
      ensures store.locks == old(store.locks) - {tx.itemID}
      ensures SyncEffect(old(store.db), tx.itemID, w, cfg, res, store.db)
      ensures Audited(old(store.db), store.db, tx.itemID, cursor, res)
      ensures res == r.(err := Some(cause), outcome := OutcomeFor(cause, w.dbCanceled))
      ensures res.outcome == Canceled || res.outcome == Failed
    {
      store.EndItem(tx, false);
      res := AfterRollback(tx.itemID, before, cursor, r, cause, runRecorded, w);
    }

    method Commit(tx: ItemTx, before: Status, cursor: Option<string>, r: SyncResult, failure: Option<Trouble>,
                  w: World)
      returns (res: SyncResult)
      requires tx.itemID in store.locks && before == StatusOf(store.db.items, tx.itemID) && Ends(r, Recorded(failure))
      requires LockedEffect(store.db, tx.itemID, w, cfg, r, tx.work)
      requires w.recordFault ==> r.skipped
      requires tx.work.runs == Logged(store.db.runs, tx.itemID, cursor, r, w)
      modifies store
      ensures store.locks == old(store.locks) - {tx.itemID}
      ensures SyncEffect(old(store.db), tx.itemID, w, cfg, res, store.db)
      ensures Audited(old(store.db), store.db, tx.itemID, cursor, res)
      ensures res == r.(err := failure)
    {
      store.EndItem(tx, true);
      res := r;
      if failure.Some? {
        res := res.(err := failure);
        SetItemStatusAfterFailure(tx.itemID, before, res.outcome, failure.value, w.statusFault);
      }
    }

    /** The end of WithItemLock and what follows it: roll back or commit, then file the
        failure. */
    method Conclude(tx: ItemTx, before: Status, cursor: Option<string>, r: SyncResult, ending: Ending, w: World)
      returns (res: SyncResult)
      requires tx.itemID in store.locks && before == StatusOf(store.db.items, tx.itemID) && Ends(r, ending)
      requires ending.Recorded? ==>
                 && LockedEffect(store.db, tx.itemID, w, cfg, r, tx.work)
                 && tx.work.runs == Logged(store.db.runs, tx.itemID, cursor, r, w)
      modifies store
      ensures store.locks == old(store.locks) - {tx.itemID}
      ensures SyncEffect(old(store.db), tx.itemID, w, cfg, res, store.db)
      ensures Audited(old(store.db), store.db, tx.itemID, cursor, res) && res.outcome != Locked
      ensures res.err.Some? ==> res.outcome == OutcomeFor(res.err.value, w.dbCanceled)
      ensures ErrorOfPlaid(res.err) == Outlasts(ending.PlaidFailure(), w)
      ensures res.err == Some(Undecryptable) <==>
        ending == Recorded(Some(Undecryptable)) && !w.recordFault && !w.commitFault
      ensures res.err == Some(FromStore(NotFound)) <==> ending == RolledBack(FromStore(NotFound))
      ensures res == r.(err := res.err, outcome := res.outcome)
      ensures res.outcome == Success <==> r.outcome == Success && !w.recordFault && !w.commitFault
      ensures res.outcome == Success ==> res.err.None?
      ensures res.err.None? && res.outcome != Success <==> r.skipped && !w.commitFault
      ensures r.skipped && !w.commitFault ==> res.outcome == r.outcome
    {
      EndsByOutcome(r, ending);
      if ending.RolledBack? {
        res := RollBack(tx, before, cursor, r, ending.cause, false, w);
        return;
      }
      // a statement that failed inside the transaction makes its commit fail
      var aborted := w.recordFault && !r.skipped;
      if w.commitFault || aborted {
        res := RollBack(tx, before, cursor, r, FromStore(QueryFailed), !aborted && !r.skipped, w);
        return;
      }
      res := Commit(tx, before, cursor, r, ending.failure, w);
    }
  }

  // ---------------------------------------------------------------- how failures are filed

  /** The item, unless it is gone or the write fails, gets this status and the error's text. */
  ghost predicate Becomes(items: map<string, Item>, id: string, status: Status, text: string, w: World,
                          items': map<string, Item>) {
    if w.statusFault || id !in items || items[id].status == Removed then items' == items
    else
      && items'.Keys == items.Keys && items'[id] == items[id].(status := status, lastError := Some(text))
      && forall x :: x in items && x != id ==> items'[x] == items[x]
  }

  /** The re-auth state of a code, case by case. */
  ghost predicate WaitsAs(code: string, status: Status) {
    && (code == "PENDING_EXPIRATION" || code == "PENDING_DISCONNECT" ==> status == PendingExpiration)
    && (code == "USER_PERMISSION_REVOKED" || code == "ACCESS_NOT_GRANTED" ==> status == PermissionRevoked)
    && (code !in {"PENDING_EXPIRATION", "PENDING_DISCONNECT", "USER_PERMISSION_REVOKED", "ACCESS_NOT_GRANTED"} ==>
          status == LoginRequired)
  }

  /** What Plaid's failure does to outcome and item, class by class. */
  ghost predicate PlaidFiled(items: map<string, Item>, id: string, f: Failure, outcome: Outcome, w: World,
                             items': map<string, Item>) {
    match f.kind
    case ClassNeedsReauth =>
      && outcome == NeedsReauth
      && exists status :: WaitsAs(f.code, status) && Becomes(items, id, status, f.code, w, items')
    case ClassFatal => outcome == Fatal && Becomes(items, id, Status.Error, f.code, w, items')
    case ClassError => outcome == Failed && Becomes(items, id, Status.Error, f.code, w, items')
    case ClassRetryable => outcome == RetryableError && Becomes(items, id, StatusOf(items, id), f.code, w, items')
    case ClassCanceled => outcome == Canceled && items' == items
  }

  /** What a run without success does to outcome and item, error by error. */
  ghost predicate FiledRightly(items: map<string, Item>, id: string, res: SyncResult, w: World,
                               items': map<string, Item>) {
    res.outcome != Success ==>
      match res.err
      case None => items' == items
      case Some(FromPlaid(f)) => PlaidFiled(items, id, f, res.outcome, w, items')
      case Some(Undecryptable) => res.outcome == Fatal && Becomes(items, id, Status.Error, "decrypt", w, items')
      case Some(FromStore(ItemLocked)) => res.outcome == Locked && items' == items
      case Some(FromStore(NotFound)) => res.outcome == Failed && items' == items
      case Some(FromStore(_)) =>
        if w.dbCanceled then res.outcome == Canceled && items' == items
        else res.outcome == Failed && Becomes(items, id, Status.Error, "store", w, items')
  }

  lemma FiledByCause(before: Database, id: string, w: World, cfg: Config, res: SyncResult, after: Database)
    requires SyncEffect(before, id, w, cfg, res, after)
    requires res.err.Some? ==> res.outcome == OutcomeFor(res.err.value, w.dbCanceled)
    ensures FiledRightly(before.items, id, res, w, after.items)
  {
    if res.err.Some? && res.err.value.FromPlaid? && res.err.value.failure.kind == ClassNeedsReauth {
      assert WaitsAs(res.err.value.failure.code, ReauthStatus(res.err.value.failure.code));
    }
  }

  const REMOVED_ITEM := Item(Removed, None, None, None, None, None, None, None, None)

  /** A removed item, nothing failing: no success, and no error either. */
  method NilErrorWithoutSuccess(w: World, cfg: Config) returns (res: SyncResult)
    requires ValidWorld(w, cfg) && !w.beginFault && !w.commitFault
    ensures res.err.None? && res.outcome == Fatal
  {
    var store := new Store(Database(map["item" := REMOVED_ITEM], map[], map[], []));
    var engine := new Engine(store, cfg);
    res := engine.SyncItem("item", w);
  }

  function ErrorText(t: Trouble): string {
    match t
    case FromPlaid(f) => f.code
    case Undecryptable => "decrypt"
    case FromStore(_) => "store"
  }

  function FailureStatus(before: Status, outcome: Outcome, failure: Trouble): Status {
    if outcome == NeedsReauth && failure.FromPlaid? then ReauthStatus(failure.failure.code)
    else if outcome == RetryableError then before else Error
  }

  function StatusAfterFailure(items: map<string, Item>, id: string, before: Status, outcome: Outcome,
                              failure: Trouble): map<string, Item> {
    var status := FailureStatus(before, outcome, failure);
    if status == Removed then items else StatusSet(items, id, status, Some(ErrorText(failure)))
  }

  /** Failed runs move the item, except when there is no item to move. */
  predicate WritesStatus(res: SyncResult, w: World) {
    && res.err.Some? && res.outcome in {RetryableError, NeedsReauth, Fatal, Failed}
    && res.err != Some(FromStore(NotFound)) && !w.statusFault
  }

  ghost predicate SyncEffect(before: Database, id: string, w: World, cfg: Config, res: SyncResult, after: Database) {
    if res.outcome == Success && !res.notReady then LockedEffect(before, id, w, cfg, res, after)
    else
      && after.txns == before.txns && after.accounts == before.accounts
      && after.items == if WritesStatus(res, w)
                        then StatusAfterFailure(before.items, id, StatusOf(before.items, id), res.outcome,
                                                res.err.value)
                        else before.items
  }

  function StatusOf(items: map<string, Item>, id: string): Status { if id in items then items[id].status else Error }

  /** How outcome, failure and rollback go together when the locked part ends. */
  ghost predicate Ends(res: SyncResult, ending: Ending) {
    && res.err.None?
    && match ending
       case Recorded(None) =>
         if res.skipped then res.outcome in {Fatal, NeedsReauth} && !res.notReady else res.outcome == Success
       case Recorded(Some(t)) => !res.skipped && !res.notReady && FailureOutcome(t, res.outcome)
       case RolledBack(cause) =>
         && !res.skipped && !res.notReady && res.outcome in {Canceled, Failed}
         && (res.outcome == Failed <==> cause.FromStore?) && cause != FromStore(ItemLocked)
         && (cause.FromPlaid? ==> cause.failure.kind == ClassCanceled) && !cause.Undecryptable?
  }

  lemma EndsByOutcome(res: SyncResult, ending: Ending)
    requires Ends(res, ending)
    ensures res.outcome == Success ==> ending == Recorded(None)
    ensures ending.Recorded? && ending.failure.None? ==> res.skipped || res.outcome == Success
    ensures ending.Recorded? && ending.failure.Some? ==> !res.skipped
  {
  }

  /** The outcome a recorded failure is filed under. */
  ghost predicate FailureOutcome(t: Trouble, outcome: Outcome) {
    match t
    case FromPlaid(f) => outcome == OutcomeOf(f.kind) && f.kind != ClassCanceled
    case Undecryptable => outcome == Fatal
    case FromStore(_) => false
  }
}
