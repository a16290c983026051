/** plaidsync's database as the store sees it: items with their lifecycle, accounts, the
    transaction ledger and the audit rows, and one item-locked transaction over them. */
module Store {
  import opened Wrappers
  import opened Records
  import opened Ledger
  import opened Links
  import Money

  datatype Status = Active | LoginRequired | PendingExpiration | PermissionRevoked | Error | Removed {
    predicate Syncable() { this in {Active, Error} }
  }

  datatype Credential = Credential(blob: string, keyVersion: nat)

  datatype Item = Item(status: Status, cursor: Option<string>, blob: Option<string>, keyVersion: Option<nat>,
                       lastError: Option<string>, lastSync: Option<nat>, consent: Option<nat>,
                       institution: Option<string>, raw: Option<string>)

  datatype NewItem = NewItem(id: string, credential: Credential, consent: Option<nat>,
                             institution: Option<string>, raw: Option<string>)

  /** An account as Plaid lists it; amounts are the balances that are present. */
  datatype AccountData = AccountData(amounts: seq<string>, other: string, raw: string)

  type Account = Keyed<AccountData>

  datatype AccountRow = AccountRow(item: string, data: AccountData, firstSeenAt: nat, lastSeenAt: nat,
                                   missingSince: Option<nat>)

  type Accounts = map<string, AccountRow>

  datatype Outcome = Success | RetryableError | NeedsReauth | Fatal | Locked | Canceled | Failed

  datatype SyncRun = SyncRun(item: string, outcome: Outcome, cursorBefore: Option<string>, cursorAfter: Option<string>,
                             pages: nat)

  datatype Database = Database(items: map<string, Item>, accounts: Accounts, txns: Table, runs: seq<SyncRun>)

  datatype StoreError = NotFound | ItemLocked | ItemRemoved | Invalid | QueryFailed

  // ---------------------------------------------------------------- item lifecycle

  predicate ValidCredential(c: Credential) { c.blob != "" && c.keyVersion > 0 }

  function Or<T>(a: Option<T>, b: Option<T>): Option<T> { if a.Some? then a else b }

  /** INSERT ... ON CONFLICT (item_id) DO UPDATE of UpsertItem. */
  function Relinked(items: map<string, Item>, n: NewItem): map<string, Item> {
    var blob, version := Some(n.credential.blob), Some(n.credential.keyVersion);
    if n.id in items then
      items[n.id := items[n.id].(status := Active, blob := blob, keyVersion := version, lastError := None,
                                 consent := n.consent, institution := Or(n.institution, items[n.id].institution),
                                 raw := Or(n.raw, items[n.id].raw))]
    else
      items[n.id := Item(Active, None, blob, version, None, None, n.consent, n.institution, n.raw)]
  }

  function Rotated(items: map<string, Item>, id: string, c: Credential): map<string, Item> {
    if id in items && items[id].blob.Some?
    then items[id := items[id].(blob := Some(c.blob), keyVersion := Some(c.keyVersion))] else items
  }

  function StatusSet(items: map<string, Item>, id: string, status: Status, error: Option<string>): map<string, Item> {
    if id in items && items[id].status != Removed
    then items[id := items[id].(status := status, lastError := Or(error, items[id].lastError))] else items
  }

  function MarkedRemoved(items: map<string, Item>, id: string): map<string, Item> {
    if id in items then items[id := items[id].(status := Removed, blob := None, keyVersion := None)] else items
  }

  /** updateItemCursorSQL */
  function CursorSaved(items: map<string, Item>, id: string, cursor: string, now: nat): map<string, Item> {
    if id in items && items[id].status != Removed
    then items[id := items[id].(cursor := Some(cursor), lastSync := Some(now), status := Active, lastError := None)]
    else items
  }

  /** The saved cursor comes with its time and makes the item active, without an error; nothing else
      changes. */
  lemma CursorIsSaved(items: map<string, Item>, id: string, cursor: string, now: nat)
    requires id in items && items[id].status != Removed
    ensures var items' := CursorSaved(items, id, cursor, now);
            && items'.Keys == items.Keys && (forall x :: x in items && x != id ==> items'[x] == items[x])
            && items'[id] == items[id].(cursor := Some(cursor), lastSync := Some(now), status := Active,
                                        lastError := None)
  {
  }

  /** An item is removed exactly when its credential and its key version are gone. */
  ghost predicate CredentialsMatchStatus(items: map<string, Item>) {
    forall id :: id in items ==>
      (items[id].status == Removed <==> items[id].blob.None?) && (items[id].blob.None? <==> items[id].keyVersion.None?)
  }

  // ---------------------------------------------------------------- accounts

  const MAX_AMOUNT_SCALE := 6

  predicate ValidAccount(a: Account) {
    a.id != "" && a.v.raw != "" && forall k :: 0 <= k < |a.v.amounts| ==>
      Money.Scale(a.v.amounts[k]) <= MAX_AMOUNT_SCALE
  }

  predicate ValidTxn(x: Txn) {
    && x.id != "" && x.v.cols.account != "" && x.v.cols.dated && x.v.raw != ""
    && Money.Scale(x.v.cols.amount) <= MAX_AMOUNT_SCALE
  }

  function AccountUpserted(t: Accounts, item: string, a: Account, now: nat): Accounts {
    var first := if a.id in t then t[a.id].firstSeenAt else now;
    t[a.id := AccountRow(item, a.v, first, now, None)]
  }

  function AccountsUpserted(t: Accounts, item: string, accounts: seq<Account>, now: nat): Accounts {
    if accounts == [] then t
    else AccountUpserted(AccountsUpserted(t, item, accounts[..|accounts| - 1], now), item, accounts[|accounts| - 1],
      now)
  }

  function MissingMarked(t: Accounts, item: string, seen: set<string>, now: nat): Accounts {
    map id | id in t :: if t[id].item == item && id !in seen
                        then t[id].(missingSince := Coalesce(t[id].missingSince, now)) else t[id]
  }

  /** The ids markMissingAccountsSQL returns: every account of the item not listed. */
  function MissingIds(t: Accounts, item: string, seen: set<string>): set<string> {
    set id | id in t && t[id].item == item && id !in seen
  }

  function IdsOf<T(==)>(xs: seq<Keyed<T>>): set<string> { set x | x in xs :: x.id }

  /** Steps 1 and 2 of a batch. */
  function AccountsApplied(t: Accounts, item: string, accounts: seq<Account>, now: nat): Accounts {
    var t' := AccountsUpserted(t, item, accounts, now);
    if accounts == [] then t' else MissingMarked(t', item, IdsOf(accounts), now)
  }

  lemma {:induction false} AccountsUpsertedAt(t: Accounts, item: string, accounts: seq<Account>, now: nat, id: string)
    ensures var t' := AccountsUpserted(t, item, accounts, now);
            match Last(accounts, id)
            case None => (id in t' <==> id in t) && (id in t ==> t'[id] == t[id])
            case Some(a) =>
              id in t' && t'[id] == AccountRow(item, a.v, if id in t then t[id].firstSeenAt else now, now, None)
  {
    if accounts != [] { AccountsUpsertedAt(t, item, accounts[..|accounts| - 1], now, id); }
  }

  /** Every account after a batch: a listed one is the item's, with its data, seen now and not missing;
      one of the item that is not listed is missing since it first was; the others stay. */
  lemma AccountAfter(t: Accounts, item: string, accounts: seq<Account>, now: nat, id: string)
    ensures var t' := AccountsApplied(t, item, accounts, now);
            && (id in t' <==> id in t || HasId(accounts, id))
            && match Last(accounts, id)
               case Some(a) =>
                 id in t' && t'[id] == AccountRow(item, a.v, if id in t then t[id].firstSeenAt else now, now, None)
               case None =>
                 id in t ==>
                   if accounts == [] || t[id].item != item || t[id].missingSince.Some? then t'[id] == t[id]
                   else t'[id] == t[id].(missingSince := Some(now))
    ensures id in Unlisted(t, item, accounts, now) <==>
      accounts != [] && id in t && t[id].item == item && !HasId(accounts, id)
  {
    AccountsUpsertedAt(t, item, accounts, now, id);
    FirstBounds(accounts, id);
    assert id in IdsOf(accounts) <==> HasId(accounts, id);
  }

  /** After a batch that listed accounts, an account of the item is flagged missing exactly
      when the batch did not list it. */
  lemma MissingMeansUnlisted(t: Accounts, item: string, accounts: seq<Account>, now: nat, id: string)
    requires accounts != [] && id in AccountsApplied(t, item, accounts, now)
    requires AccountsApplied(t, item, accounts, now)[id].item == item
    ensures AccountsApplied(t, item, accounts, now)[id].missingSince.Some? <==> id !in IdsOf(accounts)
  {
    AccountsUpsertedAt(t, item, accounts, now, id);
    FirstBounds(accounts, id);
    assert id in IdsOf(accounts) <==> HasId(accounts, id);
  }

  /** Re-applying the accounts of a batch changes nothing but when they were last seen. */
  lemma AccountReplay(t: Accounts, item: string, accounts: seq<Account>, now: nat, now': nat, id: string)
    ensures var t1 := AccountsApplied(t, item, accounts, now);
            var t2 := AccountsApplied(t1, item, accounts, now');
            (id in t2 <==> id in t1) && (id in t1 ==> t2[id] == t1[id].(lastSeenAt := t2[id].lastSeenAt))
  {
    var t1 := AccountsApplied(t, item, accounts, now);
    AccountsUpsertedAt(t, item, accounts, now, id);
    AccountsUpsertedAt(t1, item, accounts, now', id);
    FirstBounds(accounts, id);
    assert id in IdsOf(accounts) <==> HasId(accounts, id);
  }

  // ---------------------------------------------------------------- the batch

  datatype SyncBatch = SyncBatch(accounts: seq<Account>, upserts: seq<Txn>, removed: seq<Id>, next: string,
                                 added: nat, modified: nat)

  datatype TxnCounts = TxnCounts(inserted: nat, updated: nat, same: nat, removed: nat, superseded: nat)

  datatype ApplyResult = ApplyResult(txns: TxnCounts, accountsUpserted: nat, missing: set<string>)

  const NOTHING_APPLIED := ApplyResult(TxnCounts(0, 0, 0, 0, 0), 0, {})

  predicate Writes(t: Table, x: Txn) { x.id !in t || t[x.id].raw != x.v.raw }

  /** What the schema and the validators demand of the deduplicated batch. */
  predicate Storable(db: Database, item: string, b: SyncBatch) {
    && (forall a :: a in Deduped(b.accounts) ==> ValidAccount(a))
    && (forall x :: x in Deduped(b.upserts) ==> ValidTxn(x))
    && (forall x :: x in Deduped(b.upserts) && Writes(db.txns, x) ==>
          x.v.cols.account in db.accounts || x.v.cols.account in IdsOf(Deduped(b.accounts)))
  }

  function Applied(db: Database, item: string, b: SyncBatch, now: nat, pick: Pick): Database {
    db.(items := CursorSaved(db.items, item, b.next, now),
        accounts := AccountsApplied(db.accounts, item, Deduped(b.accounts), now),
        txns := ApplyTxns(db.txns, item, Deduped(b.upserts), b.removed, now, pick))
  }

  function InsertedIn(t: Table, u: seq<Txn>): nat {
    if u == [] then 0 else InsertedIn(t, u[..|u| - 1]) + if u[|u| - 1].id !in t then 1 else 0
  }

  function WrittenIn(t: Table, u: seq<Txn>): nat {
    if u == [] then 0 else WrittenIn(t, u[..|u| - 1]) + if Writes(t, u[|u| - 1]) then 1 else 0
  }

  /** Each deduplicated delivery is counted once: inserted if the id is new, updated if the
      payload differs, unchanged otherwise. */
  function Counted(t: Table, u: seq<Txn>): (c: (int, int, int)) {
    (InsertedIn(t, u), WrittenIn(t, u) - InsertedIn(t, u), |u| - WrittenIn(t, u))
  }

  function New(t: Table, u: seq<Txn>): set<Txn> { set x | x in u && x.id !in t }

  function Changed(t: Table, u: seq<Txn>): set<Txn> { set x | x in u && x.id in t && t[x.id].raw != x.v.raw }

  function Known(t: Table, u: seq<Txn>): set<Txn> { set x | x in u && x.id in t && t[x.id].raw == x.v.raw }

  lemma LastIsOther(u: seq<Txn>)
    requires DistinctIds(u) && u != []
    ensures u[|u| - 1] !in u[..|u| - 1] && u == u[..|u| - 1] + [u[|u| - 1]]
  {
  }

  lemma OneMoreNew(t: Table, init: seq<Txn>, x: Txn)
    requires x !in init
    ensures |New(t, init + [x])| == |New(t, init)| + if x.id !in t then 1 else 0
  {
    assert New(t, init + [x]) == New(t, init) + if x.id !in t then {x} else {};
  }

  lemma {:induction false} InsertedAreNew(t: Table, u: seq<Txn>)
    requires DistinctIds(u)
    ensures InsertedIn(t, u) == |New(t, u)|
  {
    if u != [] {
      var init, x := u[..|u| - 1], u[|u| - 1];
      InsertedAreNew(t, init);
      LastIsOther(u);
      OneMoreNew(t, init, x);
    }
  }

  lemma OneMoreChanged(t: Table, init: seq<Txn>, x: Txn)
    requires x !in init
    ensures |Changed(t, init + [x])| == |Changed(t, init)| + if x.id in t && t[x.id].raw != x.v.raw then 1 else 0
  {
    assert Changed(t, init + [x]) == Changed(t, init) + if x.id in t && t[x.id].raw != x.v.raw then {x} else {};
  }

  lemma {:induction false} WrittenAreChanged(t: Table, u: seq<Txn>)
    requires DistinctIds(u)
    ensures WrittenIn(t, u) == InsertedIn(t, u) + |Changed(t, u)|
  {
    if u != [] {
      var init, x := u[..|u| - 1], u[|u| - 1];
      WrittenAreChanged(t, init);
      LastIsOther(u);
      OneMoreChanged(t, init, x);
    }
  }

  lemma OneMoreKnown(t: Table, init: seq<Txn>, x: Txn)
    requires x !in init
    ensures |Known(t, init + [x])| == |Known(t, init)| + if x.id in t && t[x.id].raw == x.v.raw then 1 else 0
  {
    assert Known(t, init + [x]) == Known(t, init) + if x.id in t && t[x.id].raw == x.v.raw then {x} else {};
  }

  lemma {:induction false} RestAreKnown(t: Table, u: seq<Txn>)
    requires DistinctIds(u)
    ensures |u| == WrittenIn(t, u) + |Known(t, u)|
  {
    if u != [] {
      var init, x := u[..|u| - 1], u[|u| - 1];
      RestAreKnown(t, init);
      LastIsOther(u);
      OneMoreKnown(t, init, x);
    }
  }

  /** The counts are the numbers of deliveries that are new, that are stored with another payload, and
      that are stored as they are. */
  lemma CountedAre(t: Table, u: seq<Txn>)
    requires DistinctIds(u)
    ensures Counted(t, u) == (|New(t, u)|, |Changed(t, u)|, |Known(t, u)|)
  {
    InsertedAreNew(t, u);
    WrittenAreChanged(t, u);
    RestAreKnown(t, u);
  }

  lemma {:induction false} InsertedIsGrowth(t: Table, item: string, u: seq<Txn>, now: nat)
    requires DistinctIds(u)
    ensures |UpsertAll(t, item, u, now)| == |t| + InsertedIn(t, u)
    ensures InsertedIn(t, u) <= WrittenIn(t, u) <= |u|
  {
    if u != [] {
      var init, x := u[..|u| - 1], u[|u| - 1];
      InsertedIsGrowth(t, item, init, now);
      SeenAsBefore(t, item, init, now, x);
    }
  }

  /** Before its own turn, a delivery finds the row the batch started with. */
  lemma SeenAsBefore(t: Table, item: string, init: seq<Txn>, now: nat, x: Txn)
    requires DistinctIds(init) && (forall k :: 0 <= k < |init| ==> init[k].id != x.id)
    ensures Get(UpsertAll(t, item, init, now), x.id) == Get(t, x.id)
  {
    FirstBounds(init, x.id);
    UpsertAllKeeps(t, item, init, now, x.id);
  }

  /** A batch that is already stored counts as unchanged throughout. */
  lemma {:induction false} StoredIsUnchanged(t: Table, u: seq<Txn>)
    requires forall x :: x in u ==> x.id in t && t[x.id].raw == x.v.raw
    ensures Counted(t, u) == (0, 0, |u|)
  {
    if u != [] { StoredIsUnchanged(t, u[..|u| - 1]); }
  }

  /** Replaying a committed batch reports nothing inserted, updated or removed and every
      delivery unchanged, keeps every account but its last-seen time, and reports no
      superseded row, with the ledger unchanged, exactly when each pending row has one namer. */
  lemma BatchReplay(db: Database, item: string, b: SyncBatch, now: nat, now': nat, pick: Pick, pick': Pick)
    requires ValidPick(pick)
    ensures var db' := Applied(db, item, b, now, pick);
            var u := Deduped(b.upserts);
            && Counted(db'.txns, u) == (0, 0, |u|)
            && NewlyRemoved(UpsertAll(db'.txns, item, u, now'), item, b.removed) == {}
            && (LinkCount(db'.txns, item, u, now', pick') == 0 <==> OneNamerEach(db'.txns, item, u))
            && (OneNamerEach(db'.txns, item, u) ==> Applied(db', item, b, now', pick').txns == db'.txns)
  {
    var u := Deduped(b.upserts);
    DedupedIsDedupe(b.upserts);
    var t' := ApplyTxns(db.txns, item, u, b.removed, now, pick);
    ReplayWritesNothing(db.txns, item, u, b.removed, now, now', pick);
    ReplaySupersedes(db.txns, item, u, b.removed, now, pick, now', pick');
    DeliveredAreStored(db.txns, item, u, b.removed, now, pick);
    StoredIsUnchanged(t', u);
  }

  /** The counts of the transaction statements are those of what they change. */
  ghost predicate TxnCountsOf(r: TxnCounts, t: Table, item: string, u: seq<Txn>, removed: seq<Id>, now: nat,
                              pick: Pick) {
    var t1 := UpsertAll(t, item, u, now);
    && (r.inserted as int, r.updated as int, r.same as int) == Counted(t, u)
    && r.removed == |NewlyRemoved(t1, item, removed)|
    && r.superseded == LinkCount(SoftDelete(t1, item, removed, now), item, u, now, pick)
  }

  /** The item's accounts that a listing leaves out; none if it lists nothing. */
  function Unlisted(t: Accounts, item: string, accounts: seq<Account>, now: nat): set<string> {
    if accounts == [] then {} else MissingIds(AccountsUpserted(t, item, accounts, now), item, IdsOf(accounts))
  }

  /** The counts a successful apply reports are those of what it changed. */
  ghost predicate CountsOf(r: ApplyResult, db: Database, item: string, b: SyncBatch, now: nat, pick: Pick) {
    && TxnCountsOf(r.txns, db.txns, item, Deduped(b.upserts), b.removed, now, pick)
    && r.accountsUpserted == |Deduped(b.accounts)|
    && r.missing == Unlisted(db.accounts, item, Deduped(b.accounts), now)
  }

  // ---------------------------------------------------------------- one transaction

  predicate AllValid(u: seq<Txn>, k: nat)
    requires k <= |u|
  {
    forall i :: 0 <= i < k ==> ValidTxn(u[i])
  }

  /** Every row written so far belongs to a known account. */
  predicate AllAttached(t: Table, accounts: set<string>, u: seq<Txn>, k: nat)
    requires k <= |u|
  {
    forall i :: 0 <= i < k && Writes(t, u[i]) ==> u[i].v.cols.account in accounts
  }

  method Validated(u: seq<Txn>) returns (valid: bool)
    ensures valid == AllValid(u, |u|)
  {
    for i := 0 to |u|
      invariant AllValid(u, i)
    {
      if !ValidTxn(u[i]) { return false; }
    }
    return true;
  }

  /** The rows and counts after the first i upserts. */
  ghost predicate Written(t: Table, item: string, u: seq<Txn>, now: nat, i: nat, rows: Table, counts: (nat, nat, nat))
    requires i <= |u|
  {
    && rows == UpsertAll(t, item, u[..i], now)
    && counts.0 as int == InsertedIn(t, u[..i]) && (counts.0 + counts.1) as int == WrittenIn(t, u[..i])
    && counts.0 + counts.1 + counts.2 == i
  }

  lemma RowWritten(t: Table, item: string, u: seq<Txn>, now: nat, i: nat, rows: Table, counts: (nat, nat, nat))
    requires DistinctIds(u) && i < |u| && Written(t, item, u, now, i, rows, counts)
    ensures Get(rows, u[i].id) == Get(t, u[i].id) && (Writes(rows, u[i]) <==> Writes(t, u[i]))
    ensures var (a, b, c) := counts;
            Written(t, item, u, now, i + 1, UpsertOne(rows, item, u[i], now),
                    if u[i].id !in rows then (a + 1, b, c)
                    else if Writes(rows, u[i]) then (a, b + 1, c) else (a, b, c + 1))
  {
    assert u[..i + 1][..i] == u[..i];
    SeenAsBefore(t, item, u[..i], now, u[i]);
  }

  lemma RowAttached(t: Table, accounts: set<string>, u: seq<Txn>, i: nat)
    requires i < |u|
    ensures AllAttached(t, accounts, u, i + 1) <==>
      AllAttached(t, accounts, u, i) && (Writes(t, u[i]) ==> u[i].v.cols.account in accounts)
    ensures AllAttached(t, accounts, u, |u|) ==> AllAttached(t, accounts, u, i + 1)
  {
  }

  lemma StorableParts(db: Database, item: string, b: SyncBatch, now: nat)
    ensures var accounts, u := Deduped(b.accounts), Deduped(b.upserts);
            Storable(db, item, b) <==>
              && (forall a :: a in accounts ==> ValidAccount(a)) && AllValid(u, |u|)
              && AllAttached(db.txns, AccountsApplied(db.accounts, item, accounts, now).Keys, u, |u|)
  {
    UpsertedAccountsStay(db.accounts, item, Deduped(b.accounts), now);
  }

  /** The refused statement is one the batch runs; a batch without accounts flags none. */
  predicate Strikes(fault: Option<nat>, b: SyncBatch) {
    fault.Some? && 1 <= fault.value <= 6 && (fault.value == 2 ==> Deduped(b.accounts) != [])
  }

  /** ItemTx: the work of one item-locked transaction, visible to others only on commit.
      `fault` is the statement (1 to 6) that the database refuses, if any. */
  class ItemTx {
    const itemID: string
    var item: Item
    var work: Database

    constructor (id: string, loaded: Item, db: Database)
      ensures itemID == id && item == loaded && work == db
    {
      itemID := id;
      item := loaded;
      work := db;
    }

    method UpsertAccounts(accounts: seq<Account>, now: nat) returns (r: Result<nat, StoreError>)
      modifies this`work
      ensures r == if forall a :: a in accounts ==> ValidAccount(a) then Ok(|accounts|) else Err(Invalid)
      ensures r.Ok? <==> forall a :: a in accounts ==>
                && a.id != "" && a.v.raw != ""
                && forall k :: 0 <= k < |a.v.amounts| ==> Money.Scale(a.v.amounts[k]) <= 6
      ensures work == if r.Ok? then old(work).(accounts := AccountsUpserted(old(work).accounts, itemID, accounts, now))
                      else old(work)
    {
      for i := 0 to |accounts|
        invariant forall a :: a in accounts[..i] ==> ValidAccount(a)
      {
        if !ValidAccount(accounts[i]) {
          assert accounts[i] in accounts;
          return Err(Invalid);
        }
      }
      var rows := work.accounts;
      for i := 0 to |accounts|
        invariant rows == AccountsUpserted(work.accounts, itemID, accounts[..i], now)
      {
        assert accounts[..i + 1][..i] == accounts[..i];
        rows := AccountUpserted(rows, itemID, accounts[i], now);
      }
      assert accounts[..|accounts|] == accounts;
      work := work.(accounts := rows);
      return Ok(|accounts|);
    }

    method UpsertTransactions(u: seq<Txn>, now: nat) returns (r: Result<(nat, nat, nat), StoreError>)
      requires DistinctIds(u)
      modifies this`work
      ensures r.Ok? <==> AllValid(u, |u|) && AllAttached(old(work).txns, old(work).accounts.Keys, u, |u|)
      ensures r.Err? ==> r.error in {Invalid, QueryFailed}
      ensures r.Ok? ==> work == old(work).(txns := UpsertAll(old(work).txns, itemID, u, now))
      ensures r.Ok? ==> (r.value.0 as int, r.value.1 as int, r.value.2 as int) == Counted(old(work).txns, u)
    {
      var valid := Validated(u);
      if !valid { return Err(Invalid); }
      var inserted, updated, same := 0, 0, 0;
      var db := work;
      var rows := db.txns;
      for i := 0 to |u|
        invariant Written(db.txns, itemID, u, now, i, rows, (inserted, updated, same))
        invariant AllAttached(db.txns, db.accounts.Keys, u, i)
      {
        var x := u[i];
        RowWritten(db.txns, itemID, u, now, i, rows, (inserted, updated, same));
        RowAttached(db.txns, db.accounts.Keys, u, i);
        if Writes(rows, x) && x.v.cols.account !in db.accounts {
          return Err(QueryFailed);
        }
        if x.id !in rows { inserted := inserted + 1; }
        else if Writes(rows, x) { updated := updated + 1; }
        else { same := same + 1; }
        rows := UpsertOne(rows, itemID, x, now);
      }
      assert u[..|u|] == u;
      work := db.(txns := rows);
      return Ok((inserted, updated, same));
    }

    method SoftDeleteTransactions(ids: seq<Id>, now: nat) returns (removed: nat)
      modifies this`work
      ensures work == old(work).(txns := SoftDelete(old(work).txns, itemID, ids, now))
      ensures removed == |NewlyRemoved(old(work).txns, itemID, ids)|
    {
      removed := |NewlyRemoved(work.txns, itemID, ids)|;
      SoftDeleteNone(work.txns, itemID, ids, now);
      if |ids| > 0 {
        work := work.(txns := SoftDelete(work.txns, itemID, ids, now));
      }
    }

    method LinkPendingTransactions(u: seq<Txn>, now: nat, pick: Pick) returns (superseded: nat)
      modifies this`work
      ensures work == old(work).(txns := LinkPending(old(work).txns, itemID, u, now, pick))
      ensures superseded == LinkCount(old(work).txns, itemID, u, now, pick)
      ensures ValidPick(pick) ==>
                && AllRightlyLinked(old(work).txns, work.txns, itemID, u, now)
                && Reported(superseded, old(work).txns, work.txns, itemID, u)
    {
      LinksMean(work.txns, itemID, u, now, pick);
      if |u| == 0 {
        return 0;
      }
      superseded := |LinkedForward(work.txns, itemID, u)|;
      work := work.(txns := LinkForward(work.txns, itemID, u, now, pick));
      superseded := superseded + |LinkedReverse(work.txns, itemID, u)|;
      work := work.(txns := LinkReverse(work.txns, itemID, u, now, pick));
    }

    /** Steps 1 and 2: the accounts, and the flags of those no longer listed. */
    method ApplyAccounts(accounts: seq<Account>, now: nat, fault: Option<nat>)
      returns (r: Result<(nat, set<string>), StoreError>)
      modifies this`work
      ensures r.Ok? <==>
        (forall a :: a in accounts ==> ValidAccount(a)) && fault != Some(1) && (accounts != [] ==> fault != Some(2))
      ensures r.Err? ==> r.error in {Invalid, QueryFailed}
      ensures r.Ok? ==> work == old(work).(accounts := AccountsApplied(old(work).accounts, itemID, accounts, now))
      ensures r.Ok? ==> r.value == (|accounts|, Unlisted(old(work).accounts, itemID, accounts, now))
    {
      var n := UpsertAccounts(accounts, now);
      if n.Err? { return Err(n.error); }
      if fault == Some(1) { return Err(QueryFailed); }
      if |accounts| == 0 { return Ok((n.value, {})); }
      var missing := MissingIds(work.accounts, itemID, IdsOf(accounts));
      work := work.(accounts := MissingMarked(work.accounts, itemID, IdsOf(accounts), now));
      if fault == Some(2) { return Err(QueryFailed); }
      return Ok((n.value, missing));
    }

    /** Steps 3 to 5: upserts, removals and links, with their counts. */
    method ApplyTransactions(u: seq<Txn>, removed: seq<Id>, now: nat, pick: Pick, fault: Option<nat>)
      returns (r: Result<TxnCounts, StoreError>)
      requires DistinctIds(u)
      modifies this`work
      ensures r.Ok? <==>
        && AllValid(u, |u|) && AllAttached(old(work).txns, old(work).accounts.Keys, u, |u|)
        && fault != Some(3) && fault != Some(4) && fault != Some(5)
      ensures r.Err? ==> r.error in {Invalid, QueryFailed}
      ensures r.Ok? ==> work == old(work).(txns := ApplyTxns(old(work).txns, itemID, u, removed, now, pick))
      ensures r.Ok? ==> TxnCountsOf(r.value, old(work).txns, itemID, u, removed, now, pick)
    {
      var counts := UpsertTransactions(u, now);
      if counts.Err? { return Err(counts.error); }
      if fault == Some(3) { return Err(QueryFailed); }
      var n := SoftDeleteTransactions(removed, now);
      if fault == Some(4) { return Err(QueryFailed); }
      var superseded := LinkPendingTransactions(u, now, pick);
      if fault == Some(5) { return Err(QueryFailed); }
      return Ok(TxnCounts(counts.value.0, counts.value.1, counts.value.2, n, superseded));
    }

    method ApplySyncBatch(b: SyncBatch, now: nat, pick: Pick, fault: Option<nat>)
      returns (r: Result<ApplyResult, StoreError>)
      modifies this
      ensures old(item).status == Removed ==> r == Err(ItemRemoved) && work == old(work)
      ensures old(item).status != Removed && b.next == "" ==> r == Err(Invalid) && work == old(work)
      ensures r.Err? ==> r.error in {ItemRemoved, Invalid, QueryFailed}
      ensures r.Ok? <==>
        && old(item).status != Removed && b.next != "" && !Strikes(fault, b) && Storable(old(work), itemID, b)
        && itemID in old(work).items && old(work).items[itemID].status != Removed
      ensures r.Ok? ==> work == Applied(old(work), itemID, b, now, pick) && item == work.items[itemID]
      ensures r.Ok? ==> CountsOf(r.value, old(work), itemID, b, now, pick)
      ensures r.Ok? && ValidPick(pick) ==>
                && AllRightlyLinked(old(work).txns, work.txns, itemID, Deduped(b.upserts), now)
                && Reported(r.value.txns.superseded, old(work).txns, work.txns, itemID, Deduped(b.upserts))
    {
      BatchLinksMean(work.txns, itemID, b, now, pick);
      if item.status == Removed { return Err(ItemRemoved); }
      if b.next == "" { return Err(Invalid); }
      var accounts := Dedupe(b.accounts);
      var u := Dedupe(b.upserts);
      StorableParts(work, itemID, b, now);
      var n := ApplyAccounts(accounts, now, fault);
      if n.Err? { return Err(n.error); }
      var counts := ApplyTransactions(u, b.removed, now, pick, fault);
      if counts.Err? { return Err(counts.error); }
      if itemID !in work.items || work.items[itemID].status == Removed { return Err(ItemRemoved); }
      if fault == Some(6) { return Err(QueryFailed); }
      work := work.(items := CursorSaved(work.items, itemID, b.next, now));
      item := work.items[itemID];
      return Ok(ApplyResult(counts.value, n.value.0, n.value.1));
    }
  }

  // ---------------------------------------------------------------- the store

  /** Nothing but this item's row is different. */
  ghost predicate OnlyItem(before: Database, id: string, after: Database) {
    && after == before.(items := after.items) && after.items.Keys == before.items.Keys + {id}
    && forall x :: x in before.items && x != id ==> after.items[x] == before.items[x]
  }

  /** A linked item is active without an error, with the new credential and consent; what it had
      is kept otherwise, above all its cursor, unless the link says better. */
  ghost predicate LinkedAs(items: map<string, Item>, n: NewItem, row: Item) {
    && row.status == Active && row.lastError.None? && row.consent == n.consent
    && row.blob == Some(n.credential.blob) && row.keyVersion == Some(n.credential.keyVersion)
    && (n.institution.Some? ==> row.institution == n.institution) && (n.raw.Some? ==> row.raw == n.raw)
    && if n.id in items then
         && row.cursor == items[n.id].cursor && row.lastSync == items[n.id].lastSync
         && (n.institution.None? ==> row.institution == items[n.id].institution)
         && (n.raw.None? ==> row.raw == items[n.id].raw)
       else row.cursor.None? && row.lastSync.None?
  }

  /** The pool: the committed database and the advisory locks its transactions hold. */
  class Store {
    var db: Database
    var locks: set<string>

    constructor (db: Database)
      ensures this.db == db && locks == {}
    {
      this.db, locks := db, {};
    }

    method UpsertItem(n: NewItem) returns (r: Result<(), StoreError>)
      modifies this`db
      ensures r == if n.id != "" && ValidCredential(n.credential) then Ok(()) else Err(Invalid)
      ensures db == if r.Ok? then old(db).(items := Relinked(old(db).items, n)) else old(db)
      ensures r.Ok? ==> OnlyItem(old(db), n.id, db) && n.id in db.items && LinkedAs(old(db).items, n, db.items[n.id])
    {
      if n.id == "" || !ValidCredential(n.credential) { return Err(Invalid); }
      db := db.(items := Relinked(db.items, n));
      return Ok(());
    }

    method UpdateCredential(id: string, c: Credential) returns (r: Result<(), StoreError>)
      modifies this`db
      ensures r == if !ValidCredential(c) then Err(Invalid)
                   else if id in old(db).items && old(db).items[id].blob.Some? then Ok(()) else Err(NotFound)
      ensures db == if r.Ok? then old(db).(items := Rotated(old(db).items, id, c)) else old(db)
      ensures r.Ok? ==>
                && OnlyItem(old(db), id, db) && id in db.items
                && db.items[id] == old(db).items[id].(blob := Some(c.blob), keyVersion := Some(c.keyVersion))
    {
      if !ValidCredential(c) { return Err(Invalid); }
      if id !in db.items || db.items[id].blob.None? { return Err(NotFound); }
      db := db.(items := Rotated(db.items, id, c));
      return Ok(());
    }

    method SetItemStatus(id: string, status: Status, error: Option<string>) returns (r: Result<(), StoreError>)
      modifies this`db
      ensures r == if status == Removed then Err(Invalid)
                   else if id in old(db).items && old(db).items[id].status != Removed then Ok(()) else Err(NotFound)
      ensures db == if r.Ok? then old(db).(items := StatusSet(old(db).items, id, status, error)) else old(db)
      ensures r.Ok? ==>
                && OnlyItem(old(db), id, db) && id in db.items
                && db.items[id] == old(db).items[id].(status := status, lastError := db.items[id].lastError)
                && db.items[id].lastError == if error.Some? then error else old(db).items[id].lastError
    {
      if status == Removed { return Err(Invalid); }
      if id !in db.items || db.items[id].status == Removed { return Err(NotFound); }
      db := db.(items := StatusSet(db.items, id, status, error));
      return Ok(());
    }

    method MarkItemRemoved(id: string) returns (r: Result<(), StoreError>)
      modifies this`db
      ensures r == if id in old(db).items then Ok(()) else Err(NotFound)
      ensures db == old(db).(items := MarkedRemoved(old(db).items, id))
      ensures r.Err? ==> db == old(db)
      ensures r.Ok? ==>
                && OnlyItem(old(db), id, db) && id in db.items
                && db.items[id] == old(db).items[id].(status := Removed, blob := None, keyVersion := None)
    {
      if id !in db.items { return Err(NotFound); }
      db := db.(items := MarkedRemoved(db.items, id));
      return Ok(());
    }

    method RecordSyncRun(run: SyncRun)
      modifies this`db
      ensures db == old(db).(runs := old(db).runs + [run])
    {
      db := db.(runs := db.runs + [run]);
    }

    /** The first half of WithItemLock: begin, try the advisory lock, load the item. A
        failure after the lock was taken rolls back, which releases it. */
    method BeginItem(id: string, fault: bool) returns (r: Result<ItemTx, StoreError>)
      modifies this`locks
      ensures r.Ok? <==> id != "" && !fault && id !in old(locks) && id in db.items
      ensures r.Ok? ==> fresh(r.value) && r.value.itemID == id && r.value.item == db.items[id] && r.value.work == db
      ensures locks == if r.Ok? then old(locks) + {id} else old(locks)
      ensures r == Err(ItemLocked) <==> (id != "" && !fault && id in old(locks))
      ensures r == Err(NotFound) <==> (id != "" && !fault && id !in old(locks) && id !in db.items)
    {
      if id == "" { return Err(Invalid); }
      if fault { return Err(QueryFailed); }
      if id in locks { return Err(ItemLocked); }
      locks := locks + {id};
      if id !in db.items {
        locks := locks - {id};
        return Err(NotFound);
      }
      var tx := new ItemTx(id, db.items[id], db);
      return Ok(tx);
    }

    /** Commit or roll back; either way the lock goes with the transaction. */
    method EndItem(tx: ItemTx, commit: bool)
      requires tx.itemID in locks
      modifies this
      ensures locks == old(locks) - {tx.itemID}
      ensures db == if commit then tx.work else old(db)
    {
      locks := locks - {tx.itemID};
      if commit { db := tx.work; }
    }
  }

  lemma LinksMean(t: Table, item: string, u: seq<Txn>, now: nat, pick: Pick)
    ensures var t' := LinkPending(t, item, u, now, pick);
            ValidPick(pick) ==>
              AllRightlyLinked(t, t', item, u, now) && Reported(LinkCount(t, item, u, now, pick), t, t', item, u)
  {
    if ValidPick(pick) {
      forall p | p in t ensures RightlyLinked(t, LinkPending(t, item, u, now, pick), item, u, now, p) {
        LinkPendingIsRight(t, item, u, now, pick, p);
      }
      LinksAreReported(t, item, u, now, pick);
    }
  }

  lemma BatchLinksMean(t: Table, item: string, b: SyncBatch, now: nat, pick: Pick)
    ensures var u := Deduped(b.upserts);
            var t2 := SoftDelete(UpsertAll(t, item, u, now), item, b.removed, now);
            var t' := ApplyTxns(t, item, u, b.removed, now, pick);
            ValidPick(pick) ==>
              AllRightlyLinked(t, t', item, u, now) && Reported(LinkCount(t2, item, u, now, pick), t, t', item, u)
  {
    DedupedIsDedupe(b.upserts);
    if ValidPick(pick) {
      BatchLinksRightly(t, item, Deduped(b.upserts), b.removed, now, pick);
      BatchReports(t, item, Deduped(b.upserts), b.removed, now, pick);
    }
  }

  lemma SoftDeleteNone(t: Table, item: string, ids: seq<Id>, now: nat)
    ensures ids == [] ==> SoftDelete(t, item, ids, now) == t && NewlyRemoved(t, item, ids) == {}
  {
  }

  lemma UpsertedAccountsStay(t: Accounts, item: string, accounts: seq<Account>, now: nat)
    ensures AccountsApplied(t, item, accounts, now).Keys == t.Keys + IdsOf(accounts)
  {
    forall id ensures id in AccountsApplied(t, item, accounts, now) <==> id in t || id in IdsOf(accounts) {
      AccountsUpsertedAt(t, item, accounts, now, id);
      FirstBounds(accounts, id);
      assert id in IdsOf(accounts) <==> HasId(accounts, id);
    }
  }
}
