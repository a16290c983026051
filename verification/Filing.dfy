/** Two syncs of one item in a row: what Plaid's first failure leaves for the second. */
module Filing {
  import opened Wrappers
  import opened Store
  import opened Pagination
  import opened Engine

  /** Nothing between the item and Plaid's answer fails, nor what is written after it. */
  predicate Undisturbed(w: World) {
    !w.beginFault && !w.credentialFault && w.decryptOk && !w.recordFault && !w.commitFault && !w.statusFault
  }

  /** The database fails around the lock, and its error can be written on the item. */
  predicate DisturbsWaiting(w: World) { (w.beginFault || w.commitFault) && !w.dbCanceled && !w.statusFault }

  predicate Waits(status: Status) { status in {LoginRequired, PendingExpiration, PermissionRevoked} }

  /** What Plaid's failure makes of an item's status, class by class. */
  ghost predicate Leaves(f: Failure, was: Status, now: Status, outcome: Outcome) {
    && (f.kind == ClassNeedsReauth ==> outcome == NeedsReauth && Waits(now) && WaitsAs(f.code, now))
    && (f.kind == ClassFatal ==> outcome == Fatal && now == Status.Error)
    && (f.kind == ClassError ==> outcome == Failed && now == Status.Error)
    && (f.kind == ClassRetryable ==> outcome == RetryableError && now == was)
    && (f.kind == ClassCanceled ==> outcome == Canceled && now == was)
  }

  lemma FiledLeaves(items: map<string, Item>, id: string, f: Failure, res: SyncResult, w: World,
                    items': map<string, Item>)
    requires FiledRightly(items, id, res, w, items') && res.err == Some(FromPlaid(f)) && res.outcome != Success
    requires !w.statusFault && id in items && items[id].status in {Active, Status.Error}
    ensures id in items' && Leaves(f, items[id].status, items'[id].status, res.outcome)
    ensures items'[id].blob == items[id].blob
  {
  }

  /** A sync of an item that waits to be linked again fetches nothing and changes no row. The item
      keeps waiting unless the database fails around its lock, which turns it into an error. */
  method WaitingIsSkipped(db: Database, id: string, w: World, cfg: Config) returns (res: SyncResult, after: Database)
    requires ValidWorld(w, cfg) && id != "" && id in db.items && Waits(db.items[id].status)
    ensures res.attempts == [] && after.txns == db.txns && after.accounts == db.accounts && id in after.items
    ensures if DisturbsWaiting(w) then after.items[id].status == Status.Error else after.items == db.items
    ensures !w.beginFault && !w.commitFault ==> res.skipped && res.outcome == NeedsReauth && res.err.None?
  {
    var store := new Store(db);
    var engine := new Engine(store, cfg);
    res := engine.SyncItem(id, w);
    after := store.db;
  }

  /** A sync of an item that is active or in error asks Plaid exactly if it gets at the item's
      token. */
  method SyncableIsAsked(db: Database, id: string, w: World, cfg: Config) returns (res: SyncResult)
    requires ValidWorld(w, cfg) && id != "" && id in db.items
    requires db.items[id].status in {Active, Status.Error} && db.items[id].blob.Some?
    ensures res.attempts != [] <==> !w.beginFault && !w.credentialFault && w.decryptOk
  {
    var store := new Store(db);
    var engine := new Engine(store, cfg);
    res := engine.SyncItem(id, w);
  }

  /** What Plaid failed with is the error, and decides outcome and status. */
  method FailureIsFiled(db: Database, id: string, w: World, cfg: Config) returns (res: SyncResult, after: Database)
    requires ValidWorld(w, cfg) && Undisturbed(w) && PlaidFailure(w, cfg).Some?
    requires id != "" && id in db.items && db.items[id].status in {Active, Status.Error} && db.items[id].blob.Some?
    ensures id in after.items && after.txns == db.txns && after.accounts == db.accounts
    ensures res.err == Some(FromPlaid(PlaidFailure(w, cfg).value)) && after.items[id].blob.Some?
    ensures Leaves(PlaidFailure(w, cfg).value, db.items[id].status, after.items[id].status, res.outcome)
  {
    var store := new Store(db);
    var engine := new Engine(store, cfg);
    res := engine.SyncItem(id, w);
    after := store.db;
    FiledLeaves(db.items, id, PlaidFailure(w, cfg).value, res, w, after.items);
  }

  /** Plaid refuses the first sync. An item that has to be linked again is put in the state its
      code asks for, and the second sync fetches nothing. After any other failure the second sync asks
      Plaid again whenever it gets at the item's token: fatal and unclassified failures leave the
      item in error, retryable and canceled ones as it was. */
  method FailureThenNext(db: Database, id: string, w: World, next: World, cfg: Config)
    returns (first: SyncResult, middle: Database, second: SyncResult)
    requires ValidWorld(w, cfg) && ValidWorld(next, cfg) && Undisturbed(w) && PlaidFailure(w, cfg).Some?
    requires id != "" && id in db.items && db.items[id].status in {Active, Status.Error} && db.items[id].blob.Some?
    ensures id in middle.items && middle.txns == db.txns && middle.accounts == db.accounts
    ensures Leaves(PlaidFailure(w, cfg).value, db.items[id].status, middle.items[id].status, first.outcome)
    ensures PlaidFailure(w, cfg).value.kind == ClassNeedsReauth ==> second.attempts == []
    ensures PlaidFailure(w, cfg).value.kind != ClassNeedsReauth ==>
              (second.attempts != [] <==> !next.beginFault && !next.credentialFault && next.decryptOk)
  {
    first, middle := FailureIsFiled(db, id, w, cfg);
    if middle.items[id].status.Syncable() {
      second := SyncableIsAsked(middle, id, next, cfg);
    } else {
      var after;
      second, after := WaitingIsSkipped(middle, id, next, cfg);
    }
  }
}
