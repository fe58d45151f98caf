/** The committed database: tables with their unique indexes, and the set of writes a transaction commits. */
module Store {
  import opened Wrappers
  import opened Wallet
  import opened WagerTx
  import opened Ledger

  datatype Store = Store(
    wallets: map<Id, WalletRow>,
    owners: map<(Id, string), Id>,        // unique (player_id, currency)
    txs: map<Id, TxRow>,
    byKey: map<string, Id>,               // unique idempotency_key
    byOp: map<(string, string), Id>,      // unique (provider_id, external_transaction_id)
    ledger: seq<Entry>,                   // in commit order
    outbox: seq<Event>,                   // in commit order
    inbox: map<string, Input>)            // message id to the request whose hash the row stores

  /** Everything one database transaction of this service writes. */
  datatype Writes = Writes(
    wallet: Option<WalletRow>, tx: Option<TxRow>, entry: Option<Entry>, events: seq<Event>,
    inbox: Option<(string, Input)>)

  const NO_WRITES := Writes(None, None, None, [], None)

  const EMPTY := Store(map[], map[], map[], map[], map[], [], [], map[])

  function PutTx(s: Store, t: TxRow): Store {
    s.(txs := s.txs[t.id := t], byKey := KeysWith(s.byKey, t), byOp := OpsWith(s.byOp, t))
  }

  function KeysWith(byKey: map<string, Id>, t: TxRow): map<string, Id> {
    if t.terms.idempotencyKey == "" then byKey else byKey[t.terms.idempotencyKey := t.id]
  }

  function OpsWith(byOp: map<(string, string), Id>, t: TxRow): map<(string, string), Id> {
    if t.terms.providerId == "" then byOp else byOp[(t.terms.providerId, t.terms.externalId) := t.id]
  }

  /** Commit, and also what a transaction sees of the committed state plus its own writes. */
  function Apply(s: Store, d: Writes): Store {
    Store(
      if d.wallet.Some? then s.wallets[d.wallet.value.id := d.wallet.value] else s.wallets,
      if d.wallet.Some? then s.owners[(d.wallet.value.playerId, d.wallet.value.balance.currency) := d.wallet.value.id] else s.owners,
      if d.tx.Some? then s.txs[d.tx.value.id := d.tx.value] else s.txs,
      if d.tx.Some? then KeysWith(s.byKey, d.tx.value) else s.byKey,
      if d.tx.Some? then OpsWith(s.byOp, d.tx.value) else s.byOp,
      if d.entry.Some? then s.ledger + [d.entry.value] else s.ledger,
      s.outbox + d.events,
      if d.inbox.Some? then s.inbox[d.inbox.value.0 := d.inbox.value.1] else s.inbox)
  }

  // ---------------------------------------------------------------- queries

  function FindByKey(s: Store, key: string): Option<TxRow> {
    if key in s.byKey && s.byKey[key] in s.txs then Some(s.txs[s.byKey[key]]) else None
  }

  function FindByOp(s: Store, providerId: string, externalId: string): Option<TxRow> {
    if (providerId, externalId) in s.byOp && s.byOp[(providerId, externalId)] in s.txs
    then Some(s.txs[s.byOp[(providerId, externalId)]])
    else None
  }

  predicate IsReversal(t: TxRow) {
    (t.terms.kind == Refund || t.terms.kind == Rollback) && t.status == Processed
  }

  predicate Reverses(t: TxRow, referenceId: Id) {
    IsReversal(t) && t.resolvedReferenceId == referenceId
  }

  predicate HasProcessedReversal(s: Store, referenceId: Id) {
    exists id | id in s.txs :: Reverses(s.txs[id], referenceId)
  }

  /** An insert of this row would violate the primary key or one of the two unique keys. */
  predicate Taken(s: Store, t: TxRow) {
    || t.id in s.txs
    || (t.terms.idempotencyKey != "" && t.terms.idempotencyKey in s.byKey)
    || (t.terms.providerId != "" && (t.terms.providerId, t.terms.externalId) in s.byOp)
  }
}
