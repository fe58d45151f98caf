/** What every committed state satisfies, the shapes a commit can take, and how states may grow. */
module Invariants {
  import opened Wrappers
  import opened Money
  import opened Wallet
  import opened WagerTx
  import opened Ledger
  import opened Store
  import Process

  // ---------------------------------------------------------------- rows and indexes

  /** The index of idempotency keys lists exactly the rows that have one. */
  ghost predicate KeysOk(byKey: map<string, Id>, txs: map<Id, TxRow>) {
    && (forall k | k in byKey :: byKey[k] in txs && txs[byKey[k]].terms.idempotencyKey == k)
    && (forall id | id in txs && txs[id].terms.idempotencyKey != "" ::
          txs[id].terms.idempotencyKey in byKey && byKey[txs[id].terms.idempotencyKey] == id)
  }

  function OpOf(t: Terms): (string, string) {
    (t.providerId, t.externalId)
  }

  ghost predicate OpsOk(byOp: map<(string, string), Id>, txs: map<Id, TxRow>) {
    && (forall o | o in byOp :: byOp[o] in txs && OpOf(txs[byOp[o]].terms) == o)
    && (forall id | id in txs && txs[id].terms.providerId != "" ::
          OpOf(txs[id].terms) in byOp && byOp[OpOf(txs[id].terms)] == id)
  }

  function OwnerOf(w: WalletRow): (Id, string) {
    (w.playerId, w.balance.currency)
  }

  ghost predicate OwnersOk(owners: map<(Id, string), Id>, wallets: map<Id, WalletRow>) {
    && (forall o | o in owners :: owners[o] in wallets && OwnerOf(wallets[owners[o]]) == o)
    && (forall id | id in wallets :: OwnerOf(wallets[id]) in owners && owners[OwnerOf(wallets[id])] == id)
  }

  /** Rows sit under their own ids and the unique indexes list exactly the rows. */
  ghost predicate Indexed(s: Store) {
    && (forall id | id in s.wallets :: s.wallets[id].id == id)
    && (forall id | id in s.txs :: s.txs[id].id == id && id != "")
    && KeysOk(s.byKey, s.txs) && OpsOk(s.byOp, s.txs) && OwnersOk(s.owners, s.wallets)
  }

  ghost predicate WalletOk(w: WalletRow) {
    w.id != "" && w.playerId != "" && w.balance.currency != "" && w.balance.minorUnits >= 0 && w.version >= 1
  }

  /** A row belongs to an existing wallet and carries what its status promises; none is PENDING. */
  ghost predicate RowOk(s: Store, t: TxRow) {
    && TermsOk(t.terms)
    && t.terms.walletId in s.wallets && s.wallets[t.terms.walletId].playerId == t.terms.playerId
    && t.status != Pending
    && (t.status == Processed ==>
          && s.wallets[t.terms.walletId].balance.currency == t.terms.money.currency
          && (t.terms.kind != Opening ==> t.financialResult.Some?))
    && (t.status == PendingReference ==>
          && s.wallets[t.terms.walletId].balance.currency == t.terms.money.currency
          && t.terms.referenceExternalId != "" && t.financialResult == None && t.failureCode == NoCode)
    && (t.status == Rejected ==> t.failureCode != NoCode && t.financialResult.Some?)
    && (t.status == Failed ==> t.failureCode == ReferenceExpired && t.financialResult == None)
    && (t.terms.kind == Opening ==> t.status == Processed)
  }

  /** A processed row that names a reference is resolved to a processed row it may legally refer to. */
  ghost predicate ReferenceOk(s: Store, t: TxRow) {
    t.status == Processed && t.terms.referenceExternalId != "" ==>
      && t.resolvedReferenceId in s.txs
      && s.txs[t.resolvedReferenceId].status == Processed
      && s.txs[t.resolvedReferenceId].terms.externalId == t.terms.referenceExternalId
      && Process.ValidateReference(t.terms, s.txs[t.resolvedReferenceId].terms) == NoCode
  }

  ghost predicate Rows(s: Store) {
    && (forall id | id in s.wallets :: WalletOk(s.wallets[id]))
    && (forall id | id in s.txs :: RowOk(s, s.txs[id]))
    && (forall id | id in s.txs :: ReferenceOk(s, s.txs[id]))
  }

  /** No reference has two processed reversals. */
  ghost predicate OneReversal(s: Store) {
    forall a, b | a in s.txs && b in s.txs && IsReversal(s.txs[a]) && IsReversal(s.txs[b])
                  && s.txs[a].resolvedReferenceId == s.txs[b].resolvedReferenceId :: a == b
  }

  // ---------------------------------------------------------------- ledger and events

  function EntriesOf(ledger: seq<Entry>, walletId: Id): (r: seq<Entry>)
    ensures forall e | e in r :: e in ledger && e.walletId == walletId
    ensures forall e | e in ledger && e.walletId == walletId :: e in r
  {
    if ledger == [] then []
    else
      var front, last := ledger[..|ledger| - 1], ledger[|ledger| - 1];
      assert ledger == front + [last];
      EntriesOf(front, walletId) + if last.walletId == walletId then [last] else []
  }

  function BalanceEventsOf(outbox: seq<Event>, walletId: Id): (r: seq<Event>)
    ensures forall e | e in r :: e in outbox && e.walletId == walletId && e.data.WalletBalanceChanged?
    ensures forall e | e in outbox && e.walletId == walletId && e.data.WalletBalanceChanged? :: e in r
  {
    if outbox == [] then []
    else
      var front, last := outbox[..|outbox| - 1], outbox[|outbox| - 1];
      assert outbox == front + [last];
      BalanceEventsOf(front, walletId) + if last.walletId == walletId && last.data.WalletBalanceChanged? then [last] else []
  }

  ghost predicate IsOpening(s: Store, id: Id) {
    id in s.txs && s.txs[id].terms.kind == Opening
  }

  ghost predicate OpenedPositive(s: Store, walletId: Id) {
    var es := EntriesOf(s.ledger, walletId);
    es != [] && IsOpening(s, es[0].transactionId)
  }

  function BalanceAt(es: seq<Entry>, i: nat): int
    requires i <= |es|
  {
    if i == 0 then 0 else es[i - 1].balanceAfter.minorUnits
  }

  /** Entry `i` continues the balance left by the entries before it, and all amounts are in one currency. */
  ghost predicate Link(es: seq<Entry>, i: nat, currency: string)
    requires i < |es|
  {
    && es[i].balanceBefore.minorUnits == BalanceAt(es, i) >= 0
    && es[i].balanceAfter.minorUnits == es[i].balanceBefore.minorUnits + Signed(es[i].direction, es[i].amount) >= 0
    && es[i].amount.minorUnits > 0
    && es[i].amount.currency == es[i].balanceBefore.currency == es[i].balanceAfter.currency == currency
  }

  /** Entries start from zero, each continues the previous one, and all balances are non-negative. */
  ghost predicate Chained(es: seq<Entry>, currency: string) {
    forall i | 0 <= i < |es| :: Link(es, i, currency)
  }

  /** The chain of a wallet ends in its stored balance, and its version counts the entries after the opening. */
  ghost predicate Books(s: Store, w: WalletRow) {
    var es := EntriesOf(s.ledger, w.id);
    && Chained(es, w.balance.currency)
    && w.balance.minorUnits == BalanceAt(es, |es|)
    && w.version == |es| + (if OpenedPositive(s, w.id) then 0 else 1)
    && (forall i | 0 < i < |es| :: !IsOpening(s, es[i].transactionId))
  }

  /** The event announces the entry, as the wallet version `version`. */
  ghost predicate Announces(ev: Event, e: Entry, version: int) {
    && ev.data.WalletBalanceChanged?
    && ev.walletId == e.walletId && ev.data.transactionId == e.transactionId
    && ev.data.direction == e.direction && ev.data.money == e.amount
    && ev.data.balanceBefore == e.balanceBefore && ev.data.balanceAfter == e.balanceAfter
    && ev.data.walletVersion == version
  }

  ghost predicate Announced(s: Store, w: WalletRow) {
    var es, evs := EntriesOf(s.ledger, w.id), BalanceEventsOf(s.outbox, w.id);
    && |evs| == |es|
    && forall i | 0 <= i < |es| :: Announces(evs[i], es[i], i + (if OpenedPositive(s, w.id) then 1 else 2))
  }

  ghost predicate Accounts(s: Store) {
    forall id | id in s.wallets :: Books(s, s.wallets[id]) && Announced(s, s.wallets[id])
  }

  function DirectionOfRow(s: Store, t: TxRow): Option<Direction> {
    if t.terms.kind == Opening then Some(Credit)
    else Process.DirectionOf(t.terms.kind, if t.resolvedReferenceId in s.txs then Some(s.txs[t.resolvedReferenceId].terms.kind) else None)
  }

  ghost predicate Moves(t: TxRow) {
    t.status == Processed && t.terms.kind != Loss
  }

  ghost predicate EntryOk(s: Store, e: Entry) {
    && e.transactionId in s.txs && e.walletId in s.wallets
    && Moves(s.txs[e.transactionId])
    && s.txs[e.transactionId].terms.walletId == e.walletId
    && s.txs[e.transactionId].terms.money == e.amount
    && DirectionOfRow(s, s.txs[e.transactionId]) == Some(e.direction)
  }

  /** Entries and processed moving rows correspond one to one. */
  ghost predicate Entries(s: Store) {
    && (forall e | e in s.ledger :: EntryOk(s, e))
    && (forall i, j | 0 <= i < j < |s.ledger| :: s.ledger[i].transactionId != s.ledger[j].transactionId)
    && (forall id | id in s.txs && Moves(s.txs[id]) :: HasEntry(s, id))
  }

  ghost predicate HasEntry(s: Store, id: Id) {
    exists i | 0 <= i < |s.ledger| :: s.ledger[i].transactionId == id
  }

  /** Event ids are unique, and balance events belong to existing wallets. */
  ghost predicate Events(s: Store) {
    && (forall i, j | 0 <= i < j < |s.outbox| :: s.outbox[i].id != s.outbox[j].id)
    && (forall e | e in s.outbox && e.data.WalletBalanceChanged? :: e.walletId in s.wallets)
  }

  /** The request has its row: under its key, with its payload hash. */
  ghost predicate RowFor(s: Store, i: Input) {
    && i.idempotencyKey in s.byKey && s.byKey[i.idempotencyKey] in s.txs
    && s.txs[s.byKey[i.idempotencyKey]].terms.payloadHash == Some(CanonicalOf(i))
  }

  ghost predicate InboxBacked(s: Store) {
    forall m | m in s.inbox :: RowFor(s, s.inbox[m])
  }

  ghost predicate StoreInv(s: Store) {
    && Indexed(s) && Rows(s) && OneReversal(s)
    && Accounts(s) && Entries(s) && Events(s)
    && InboxBacked(s)
  }

  lemma GoodFacts(s: Store)
    requires StoreInv(s)
    ensures Indexed(s) && Rows(s)
  {
  }

  // ---------------------------------------------------------------- commits

  ghost predicate NewEvents(s: Store, events: seq<Event>) {
    && (forall e | e in s.outbox :: forall f | f in events :: e.id != f.id)
    && (forall i, j | 0 <= i < j < |events| :: events[i].id != events[j].id)
  }

  /** The row is inserted under unused keys, or replaces a waiting row of the same terms. */
  ghost predicate MayWrite(s: Store, t: TxRow) {
    && t.id != ""
    && if t.id in s.txs then s.txs[t.id].status == PendingReference && s.txs[t.id].terms == t.terms && t.terms.kind != Opening
       else !Taken(s, t)
  }

  /** A commit that writes a transaction row and moves no money. */
  ghost predicate RowCommit(s: Store, d: Writes) {
    && d.wallet.None? && d.entry.None? && d.tx.Some?
    && MayWrite(s, d.tx.value) && RowOk(s, d.tx.value) && d.tx.value.terms.kind != Opening
    && (d.tx.value.status == Processed ==> d.tx.value.terms.kind == Loss)
    && (forall e | e in d.events :: !e.data.WalletBalanceChanged?)
    && NewEvents(s, d.events)
  }

  /** A commit that moves one wallet's balance for one transaction. */
  ghost predicate MoveCommit(s: Store, d: Writes) {
    && d.wallet.Some? && d.entry.Some? && d.tx.Some?
    && var t, w', e := d.tx.value, d.wallet.value, d.entry.value;
    && MayWrite(s, t) && RowOk(s, t) && ReferenceOk(s, t)
    && t.status == Processed && t.terms.kind != Opening
    && (IsReversal(t) ==> !HasProcessedReversal(s, t.resolvedReferenceId))
    && var w := s.wallets[t.terms.walletId];
    && DirectionOfRow(s, t) == Some(e.direction)
    && w' == w.(balance := w'.balance, version := w.version + 1, updatedAt := w'.updatedAt)
    && w'.balance.currency == w.balance.currency
    && w'.balance.minorUnits == w.balance.minorUnits + Signed(e.direction, e.amount) >= 0
    && w.id == e.walletId == t.terms.walletId && e.transactionId == t.id && e.amount == t.terms.money
    && e.balanceBefore == w.balance && e.balanceAfter == w'.balance
    && |d.events| == 2 && !d.events[0].data.WalletBalanceChanged? && Announces(d.events[1], e, w'.version)
    && NewEvents(s, d.events)
  }

  /** A commit that creates a wallet, with an opening entry when it starts with money. */
  ghost predicate OpenCommit(s: Store, d: Writes) {
    && d.wallet.Some? && WalletOk(d.wallet.value)
    && var w := d.wallet.value;
    && w.version == 1 && w.id !in s.wallets && OwnerOf(w) !in s.owners
    && if w.balance.minorUnits == 0 then d.tx.None? && d.entry.None? && d.events == []
       else
         && d.tx.Some? && d.entry.Some?
         && var t, e := d.tx.value, d.entry.value;
         && t.id != "" && t.id !in s.txs && TermsOk(t.terms) && t.terms.kind == Opening && t.status == Processed
         && t.terms.walletId == w.id && t.terms.playerId == w.playerId && t.terms.money == w.balance
         && e.walletId == w.id && e.transactionId == t.id && e.amount == w.balance && e.direction == Credit
         && e.balanceBefore == Money(0, w.balance.currency) && e.balanceAfter == w.balance
         && |d.events| == 2 && !d.events[0].data.WalletBalanceChanged? && Announces(d.events[1], e, 1)
         && NewEvents(s, d.events)
  }

  ghost predicate SilentCommit(d: Writes) {
    d.wallet.None? && d.entry.None? && d.tx.None? && d.events == []
  }

  ghost predicate Legal(s: Store, d: Writes) {
    && (RowCommit(s, d) || MoveCommit(s, d) || OpenCommit(s, d) || SilentCommit(d))
    && (d.inbox.Some? ==> d.inbox.value.0 !in s.inbox && RowFor(Apply(s, d), d.inbox.value.1))
  }

  // ---------------------------------------------------------------- growth

  /** A wallet keeps its identity; its version never falls, and an equal version means an equal row. */
  ghost predicate WalletGrows(w: WalletRow, w': WalletRow) {
    && w'.id == w.id && w'.playerId == w.playerId && w'.balance.currency == w.balance.currency && w'.createdAt == w.createdAt
    && w'.version >= w.version
    && (w'.version == w.version ==> w' == w)
  }

  /** A row keeps its terms, and a terminal row never changes. */
  ghost predicate TxGrows(t: TxRow, t': TxRow) {
    && t'.id == t.id && t'.terms == t.terms
    && (IsTerminal(t.status) ==> t' == t)
  }

  ghost predicate NewReversal(s: Store, s': Store, id: Id) {
    id in s'.txs && IsReversal(s'.txs[id]) && !(id in s.txs && IsReversal(s.txs[id]))
  }

  ghost predicate Advanced(s: Store, s': Store, walletId: Id) {
    walletId in s'.wallets && (walletId in s.wallets ==> s'.wallets[walletId].version > s.wallets[walletId].version)
  }

  /** Every reversal processed since `s` has moved its wallet on. */
  ghost predicate ReversalMovesWallet(s: Store, s': Store) {
    forall id :: NewReversal(s, s', id) ==> Advanced(s, s', s'.txs[id].terms.walletId)
  }

  ghost predicate RowsGrow(s: Store, s': Store) {
    && (forall id | id in s.wallets :: id in s'.wallets && WalletGrows(s.wallets[id], s'.wallets[id]))
    && (forall id | id in s.txs :: id in s'.txs && TxGrows(s.txs[id], s'.txs[id]))
  }

  ghost predicate Within<K, V>(m: map<K, V>, m': map<K, V>) {
    forall k | k in m :: k in m' && m'[k] == m[k]
  }

  /** The later state keeps everything the earlier one promised. */
  ghost predicate Extends(s: Store, s': Store) {
    && RowsGrow(s, s')
    && Within(s.byKey, s'.byKey) && Within(s.byOp, s'.byOp) && Within(s.inbox, s'.inbox)
    && s.ledger <= s'.ledger && s.outbox <= s'.outbox
    && ReversalMovesWallet(s, s')
  }

  lemma ExtendsReflexive(s: Store)
    ensures Extends(s, s)
  {
  }

  lemma RowsGrowTransitive(a: Store, b: Store, c: Store)
    requires RowsGrow(a, b) && RowsGrow(b, c)
    ensures RowsGrow(a, c)
  {
    forall id | id in a.wallets
      ensures id in c.wallets && WalletGrows(a.wallets[id], c.wallets[id])
    {
      assert WalletGrows(a.wallets[id], b.wallets[id]) && WalletGrows(b.wallets[id], c.wallets[id]);
    }
    forall id | id in a.txs
      ensures id in c.txs && TxGrows(a.txs[id], c.txs[id])
    {
      assert TxGrows(a.txs[id], b.txs[id]) && TxGrows(b.txs[id], c.txs[id]);
    }
  }

  lemma ReversalMovesTransitive(a: Store, b: Store, c: Store)
    requires RowsGrow(a, b) && RowsGrow(b, c)
    requires ReversalMovesWallet(a, b) && ReversalMovesWallet(b, c)
    ensures ReversalMovesWallet(a, c)
  {
    forall id | NewReversal(a, c, id)
      ensures Advanced(a, c, c.txs[id].terms.walletId)
    {
      var w := c.txs[id].terms.walletId;
      if id in b.txs && IsReversal(b.txs[id]) {
        assert TxGrows(b.txs[id], c.txs[id]);
        assert NewReversal(a, b, id);
        assert Advanced(a, b, w);
        assert w in b.wallets && WalletGrows(b.wallets[w], c.wallets[w]);
      } else {
        assert NewReversal(b, c, id);
        if w in a.wallets {
          assert WalletGrows(a.wallets[w], b.wallets[w]);
        }
      }
    }
  }

  lemma ExtendsTransitive(a: Store, b: Store, c: Store)
    requires Extends(a, b) && Extends(b, c)
    ensures Extends(a, c)
  {
    assert RowsGrow(a, c) by { RowsGrowTransitive(a, b, c); }
    assert ReversalMovesWallet(a, c) by { ReversalMovesTransitive(a, b, c); }
    assert Within(a.byKey, c.byKey) && Within(a.byOp, c.byOp) && Within(a.inbox, c.inbox);
  }
}
