/** What the validators and the foreign key come to over whole runs: every stored transaction is a
    valid one of a known account. */
module Rows {
  import opened Wrappers
  import opened Records
  import opened Ledger
  import opened Store
  import opened Engine
  import opened SyncProtocol
  import Money

  /** An id, a date, a payload, an amount with at most six decimals, and a stored account. */
  ghost predicate SoundRow(id: Id, r: Row, accounts: set<string>) {
    && id != "" && r.raw != "" && r.cols.dated && Money.Scale(r.cols.amount) <= 6
    && r.cols.account != "" && r.cols.account in accounts
  }

  ghost predicate RowsAreSound(db: Database) {
    forall id :: id in db.txns ==> SoundRow(id, db.txns[id], db.accounts.Keys)
  }

  /** One row after a batch, apart from its link: the last delivery of its id, or as it was. */
  lemma RowAfter(t: Table, item: string, u: seq<Txn>, removed: seq<Id>, now: nat, pick: Pick, decode: Decoder, id: Id)
    requires Decoded(t, decode) && DecodedAll(u, decode) && id in ApplyTxns(t, item, u, removed, now, pick)
    ensures var r := ApplyTxns(t, item, u, removed, now, pick)[id];
            match Last(u, id)
            case None => id in t && r.cols == t[id].cols && r.raw == t[id].raw
            case Some(x) => x in u && x.id == id && r.cols == x.v.cols && r.raw == x.v.raw
  {
    BatchEntryAt(t, item, u, removed, now, pick, decode, id);
    FirstBounds(u, id);
  }

  lemma DeliveredIsSound(db: Database, item: string, b: SyncBatch, now: nat, decode: Decoder, x: Txn)
    requires Storable(db, item, b) && RowsAreSound(db) && x in Deduped(b.upserts)
    requires Decoded(db.txns, decode) && DecodedAll(Deduped(b.upserts), decode)
    ensures x.id != "" && x.v.raw != "" && x.v.cols.dated && Money.Scale(x.v.cols.amount) <= 6
    ensures x.v.cols.account != "" && x.v.cols.account in AccountsApplied(db.accounts, item, Deduped(b.accounts), now)
  {
    UpsertedAccountsStay(db.accounts, item, Deduped(b.accounts), now);
    assert ValidTxn(x);
    if !Writes(db.txns, x) {
      assert SoundRow(x.id, db.txns[x.id], db.accounts.Keys);
      assert x.v.cols == decode(x.v.raw) == db.txns[x.id].cols;
    }
  }

  lemma CommitKeepsSound(db: Database, item: string, b: SyncBatch, now: nat, pick: Pick, decode: Decoder)
    requires Storable(db, item, b) && RowsAreSound(db)
    requires Decoded(db.txns, decode) && DecodedAll(Deduped(b.upserts), decode)
    ensures RowsAreSound(Applied(db, item, b, now, pick))
  {
    var u, db' := Deduped(b.upserts), Applied(db, item, b, now, pick);
    UpsertedAccountsStay(db.accounts, item, Deduped(b.accounts), now);
    forall id | id in db'.txns ensures SoundRow(id, db'.txns[id], db'.accounts.Keys) {
      RowAfter(db.txns, item, u, b.removed, now, pick, decode, id);
      if Last(u, id).Some? {
        DeliveredIsSound(db, item, b, now, decode, Last(u, id).value);
      } else {
        assert SoundRow(id, db.txns[id], db.accounts.Keys);
      }
    }
  }

  lemma StepKeepsSound(sv: Server, s: State, a: Action, s': State)
    requires Sane(sv) && Inv(sv, s) && Next(sv, s, a, s') && RowsAreSound(s.db)
    ensures RowsAreSound(s'.db)
  {
    if a.Commit? {
      var k := s.workers[a.w];
      assert GoodWorker(sv, s.db, k);
      DeliveredFromLog(sv, k.item, k.acc, sv.position(k.orig), sv.position(k.cursor));
      CommitKeepsSound(s.db, k.item, BatchOf(k.acc, a.accounts), a.now, a.pick, sv.decode);
    } else {
      OtherKeepsRows(sv, s, a, s');
    }
  }

  /** In every state of every run. */
  lemma {:induction false} RowsStaySound(sv: Server, states: seq<State>, actions: seq<Action>, i: nat)
    requires Sane(sv) && Run(sv, states, actions) && i < |states|
    ensures RowsAreSound(states[i].db)
  {
    if i > 0 {
      RowsStaySound(sv, states, actions, i - 1);
      RunsAreGood(sv, states, actions, i - 1);
      StepKeepsSound(sv, states[i - 1], actions[i - 1], states[i]);
    }
  }
}
