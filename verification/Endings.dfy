/** The endings of the use cases are legal commits on every state in which their row is still writable. */
module Endings {
  import opened Wrappers
  import opened Money
  import opened Wallet
  import opened WagerTx
  import opened Ledger
  import opened Store
  import opened Process
  import opened Invariants

  /** The identifiers of an attempt are non-empty, distinct where they share a table, and unused. */
  ghost predicate Fresh(s: Store, env: Env) {
    && env.txId != "" && env.walletId != "" && env.entryId != ""
    && env.txId !in s.txs && env.walletId !in s.wallets
    && env.event1 != env.event2
    && (forall e | e in s.outbox :: e.id != env.event1 && e.id != env.event2)
  }

  /** A row under construction, or the waiting row being resumed, that the state still lets be written. */
  ghost predicate Writable(s: Store, t: TxRow) {
    && MayWrite(s, t) && TermsOk(t.terms) && t.terms.kind != Opening
    && IsOpen(t.status) && t.failureCode == NoCode && t.financialResult == None
    && t.terms.walletId in s.wallets && s.wallets[t.terms.walletId].playerId == t.terms.playerId
  }

  /** The row's wallet is there, in order, and in the currency of the row. */
  ghost predicate OnWallet(s: Store, t: TxRow) {
    && t.terms.walletId in s.wallets && WalletOk(s.wallets[t.terms.walletId])
    && s.wallets[t.terms.walletId].id == t.terms.walletId
    && s.wallets[t.terms.walletId].balance.currency == t.terms.money.currency
  }

  lemma RejectLegal(s: Store, t: TxRow, w: WalletRow, code: FailureCode, env: Env)
    requires Writable(s, t) && code != NoCode && Fresh(s, env)
    ensures Reject(t, w, code, env).Committed? && RowCommit(s, Reject(t, w, code, env).writes)
  {
  }

  lemma ParkLegal(s: Store, t: TxRow, w: WalletRow, env: Env)
    requires Writable(s, t) && t.status == Pending && OnWallet(s, t) && t.terms.referenceExternalId != "" && Fresh(s, env)
    ensures Park(t, w, env).Committed? && RowCommit(s, Park(t, w, env).writes)
  {
  }

  lemma NoteLegal(s: Store, t: TxRow, w: WalletRow, env: Env)
    requires Writable(s, t) && t.terms.kind == Loss && OnWallet(s, t) && Fresh(s, env)
    ensures Note(t, w, env).Committed? && RowCommit(s, Note(t, w, env).writes)
  {
  }

  lemma WaitLegal(s: Store, t: TxRow, w: WalletRow, env: Env)
    requires Writable(s, t) && t.status == PendingReference && OnWallet(s, t) && t.terms.referenceExternalId != ""
    ensures Wait(t, env).Committed? && RowCommit(s, Wait(t, env).writes)
  {
  }

  lemma ExpireLegal(s: Store, id: Id, env: Env)
    requires id in s.txs && s.txs[id].id == id && s.txs[id].status == PendingReference && Writable(s, s.txs[id]) && Fresh(s, env)
    ensures Expire(s, id, env).Committed? && RowCommit(s, Expire(s, id, env).writes)
  {
  }

  /** What a row must have found out about its reference before it can be settled. */
  ghost predicate ReferenceReady(s: Store, t: TxRow) {
    && ReferenceOk(s, t.(status := Processed))
    && (t.terms.kind == Refund || t.terms.kind == Rollback ==> !HasProcessedReversal(s, t.resolvedReferenceId))
  }

  lemma MovedFacts(w: WalletRow, direction: Direction, amount: Money, now: Time)
    requires WalletOk(w) && Moved(w, direction, amount, now).Ok?
    ensures var w' := Moved(w, direction, amount, now).value;
      && w' == w.(balance := w'.balance, version := w.version + 1, updatedAt := now)
      && w'.balance.currency == w.balance.currency == amount.currency != "" && amount.minorUnits > 0
      && w'.balance.minorUnits == w.balance.minorUnits + Signed(direction, amount) >= 0
  {
  }

  /** Once the wallet has been saved nothing in the settlement can fail: the entry's checks all hold. */
  lemma SettleCommits(w: WalletRow, t: TxRow, direction: Direction, env: Env)
    requires WalletOk(w) && Moved(w, direction, t.terms.money, env.now).Ok?
    requires t.id != "" && IsOpen(t.status) && env.entryId != ""
    ensures var w' := Moved(w, direction, t.terms.money, env.now).value;
      var entry := NewEntry(env.entryId, w.id, t.id, direction, t.terms.money, w.balance, w'.balance, env.now);
      && entry.Ok?
      && Settle(t, w, w', direction, env).Committed?
      && Settle(t, w, w', direction, env).writes.entry == Some(entry.value)
  {
    MovedFacts(w, direction, t.terms.money, env.now);
  }

  lemma SettleLegal(s: Store, t: TxRow, direction: Direction, env: Env)
    requires Writable(s, t) && OnWallet(s, t) && ReferenceReady(s, t) && Fresh(s, env)
    requires DirectionOfRow(s, t) == Some(direction)
    requires Moved(s.wallets[t.terms.walletId], direction, t.terms.money, env.now).Ok?
    ensures var w := s.wallets[t.terms.walletId];
      var o := Settle(t, w, Moved(w, direction, t.terms.money, env.now).value, direction, env);
      o.Committed? && MoveCommit(s, o.writes)
  {
    var w := s.wallets[t.terms.walletId];
    MovedFacts(w, direction, t.terms.money, env.now);
    SettleCommits(w, t, direction, env);
    var w' := Moved(w, direction, t.terms.money, env.now).value;
    var d := Settle(t, w, w', direction, env).writes;
    assert d.entry.value == Entry(env.entryId, w.id, t.id, direction, t.terms.money, w.balance, w'.balance, env.now);
    assert d.tx.value == t.(status := Processed, financialResult := Some(w'.balance), updatedAt := env.now);
    assert t.terms.kind != Loss;
    assert RowOk(s, d.tx.value);
    assert MayWrite(s, d.tx.value);
    assert DirectionOfRow(s, d.tx.value) == Some(direction);
    assert NewEvents(s, d.events);
  }

  lemma OpenLegal(s: Store, playerId: Id, balance: Money, env: Env)
    requires Fresh(s, env)
    requires Open(s, playerId, balance, env).Committed?
    ensures OpenCommit(s, Open(s, playerId, balance, env).writes)
  {
  }
}
