/** Every legal commit keeps the store invariant and only lets the store grow. */
module Preservation {
  import opened Wrappers
  import opened Money
  import opened Wallet
  import opened WagerTx
  import opened Ledger
  import opened Store
  import opened Invariants

  // ---------------------------------------------------------------- what all shapes have in common

  /** The wallet row is created under an unused owner, or replaces the row one version before it. */
  ghost predicate WalletWrite(s: Store, w: WalletRow) {
    && WalletOk(w)
    && if w.id in s.wallets then
         && w.playerId == s.wallets[w.id].playerId && w.balance.currency == s.wallets[w.id].balance.currency
         && w.createdAt == s.wallets[w.id].createdAt && w.version == s.wallets[w.id].version + 1
       else OwnerOf(w) !in s.owners
  }

  function WithWallet(s: Store, w: Option<WalletRow>): Store {
    if w.Some? then s.(wallets := s.wallets[w.value.id := w.value]) else s
  }

  ghost predicate WalletFits(s: Store, d: Writes) {
    d.wallet.Some? ==> WalletWrite(s, d.wallet.value)
  }

  ghost predicate TxFits(s: Store, d: Writes) {
    d.tx.Some? ==> MayWrite(s, d.tx.value)
  }

  ghost predicate RowFits(s: Store, d: Writes) {
    d.tx.Some? ==> RowOk(WithWallet(s, d.wallet), d.tx.value) && ReferenceOk(s, d.tx.value)
  }

  ghost predicate ReversalFits(s: Store, d: Writes) {
    d.tx.Some? && IsReversal(d.tx.value) ==>
      && d.wallet.Some? && d.wallet.value.id == d.tx.value.terms.walletId
      && !HasProcessedReversal(s, d.tx.value.resolvedReferenceId)
  }

  ghost predicate Gentle(s: Store, d: Writes) {
    WalletFits(s, d) && TxFits(s, d) && RowFits(s, d) && ReversalFits(s, d)
  }

  lemma MoveIsGentle(s: Store, d: Writes)
    requires Rows(s) && MoveCommit(s, d)
    ensures Gentle(s, d)
  {
    var w := s.wallets[d.tx.value.terms.walletId];
    assert WalletOk(w);
  }

  lemma OpenIsGentle(s: Store, d: Writes)
    requires OpenCommit(s, d)
    ensures Gentle(s, d)
  {
  }

  lemma LegalIsGentle(s: Store, d: Writes)
    requires Rows(s) && Legal(s, d)
    ensures Gentle(s, d)
  {
    if MoveCommit(s, d) {
      MoveIsGentle(s, d);
    } else if OpenCommit(s, d) {
      OpenIsGentle(s, d);
    }
  }

  lemma KeysKept(byKey: map<string, Id>, txs: map<Id, TxRow>, t: TxRow)
    requires KeysOk(byKey, txs)
    requires t.id in txs ==> txs[t.id].terms == t.terms
    requires t.id !in txs && t.terms.idempotencyKey != "" ==> t.terms.idempotencyKey !in byKey
    ensures KeysOk(KeysWith(byKey, t), txs[t.id := t]) && Within(byKey, KeysWith(byKey, t))
  {
  }

  lemma OpsKept(byOp: map<(string, string), Id>, txs: map<Id, TxRow>, t: TxRow)
    requires OpsOk(byOp, txs)
    requires t.id in txs ==> txs[t.id].terms == t.terms
    requires t.id !in txs && t.terms.providerId != "" ==> OpOf(t.terms) !in byOp
    ensures OpsOk(OpsWith(byOp, t), txs[t.id := t]) && Within(byOp, OpsWith(byOp, t))
  {
  }

  lemma TxIndexesKept(s: Store, d: Writes)
    requires KeysOk(s.byKey, s.txs) && OpsOk(s.byOp, s.txs) && TxFits(s, d)
    ensures var s' := Apply(s, d); KeysOk(s'.byKey, s'.txs) && OpsOk(s'.byOp, s'.txs)
    ensures var s' := Apply(s, d); Within(s.byKey, s'.byKey) && Within(s.byOp, s'.byOp)
  {
    if d.tx.Some? {
      KeysKept(s.byKey, s.txs, d.tx.value);
      OpsKept(s.byOp, s.txs, d.tx.value);
    }
  }

  lemma OwnerIndexKept(s: Store, d: Writes)
    requires OwnersOk(s.owners, s.wallets) && WalletFits(s, d)
    ensures var s' := Apply(s, d); OwnersOk(s'.owners, s'.wallets)
  {
    if d.wallet.Some? {
      OwnersKept(s.owners, s.wallets, d.wallet.value);
    }
  }

  lemma IndexedKept(s: Store, d: Writes)
    requires Indexed(s) && WalletFits(s, d) && TxFits(s, d)
    ensures Indexed(Apply(s, d))
    ensures Within(s.byKey, Apply(s, d).byKey) && Within(s.byOp, Apply(s, d).byOp)
  {
    TxIndexesKept(s, d);
    OwnerIndexKept(s, d);
  }

  lemma OwnersKept(owners: map<(Id, string), Id>, wallets: map<Id, WalletRow>, w: WalletRow)
    requires OwnersOk(owners, wallets)
    requires w.id in wallets ==> OwnerOf(wallets[w.id]) == OwnerOf(w)
    requires w.id !in wallets ==> OwnerOf(w) !in owners
    ensures OwnersOk(owners[OwnerOf(w) := w.id], wallets[w.id := w])
  {
  }

  lemma RowsGrowKept(s: Store, d: Writes)
    requires forall id | id in s.txs :: s.txs[id].id == id
    requires forall id | id in s.wallets :: s.wallets[id].id == id
    requires WalletFits(s, d) && TxFits(s, d)
    ensures RowsGrow(s, Apply(s, d))
  {
  }

  lemma ReversalMovesKept(s: Store, d: Writes)
    requires WalletFits(s, d) && ReversalFits(s, d)
    ensures ReversalMovesWallet(s, Apply(s, d))
  {
    var s' := Apply(s, d);
    forall id | NewReversal(s, s', id)
      ensures Advanced(s, s', s'.txs[id].terms.walletId)
    {
      assert d.tx.Some? && id == d.tx.value.id;
    }
  }

  lemma GrowsKept(s: Store, d: Writes)
    requires Indexed(s) && WalletFits(s, d) && TxFits(s, d) && ReversalFits(s, d)
    requires d.inbox.Some? ==> d.inbox.value.0 !in s.inbox
    ensures Extends(s, Apply(s, d))
  {
    var s' := Apply(s, d);
    assert Within(s.byKey, s'.byKey) && Within(s.byOp, s'.byOp) by { IndexedKept(s, d); }
    assert RowsGrow(s, s') by { RowsGrowKept(s, d); }
    assert ReversalMovesWallet(s, s') by { ReversalMovesKept(s, d); }
    assert Within(s.inbox, s'.inbox);
  }

  /** Processed rows, and who owns a wallet in which currency, never change. */
  ghost predicate Settled(s: Store, s': Store) {
    && (forall id | id in s.wallets :: id in s'.wallets && OwnerOf(s'.wallets[id]) == OwnerOf(s.wallets[id]))
    && (forall id | id in s.txs && s.txs[id].status == Processed :: id in s'.txs && s'.txs[id] == s.txs[id])
  }

  lemma SettledKept(s: Store, d: Writes)
    requires WalletFits(s, d) && TxFits(s, d)
    ensures Settled(s, Apply(s, d))
  {
  }

  lemma RowsKept(s: Store, d: Writes)
    requires Rows(s) && WalletFits(s, d) && TxFits(s, d) && RowFits(s, d)
    ensures Rows(Apply(s, d))
  {
    var s' := Apply(s, d);
    SettledKept(s, d);
    forall id | id in s'.wallets
      ensures WalletOk(s'.wallets[id])
    {
    }
    forall id | id in s'.txs
      ensures RowOk(s', s'.txs[id]) && ReferenceOk(s', s'.txs[id])
    {
      if d.tx.Some? && id == d.tx.value.id {
        RowOkElsewhere(WithWallet(s, d.wallet), s', d.tx.value);
        ReferenceOkElsewhere(s, s', d.tx.value);
      } else {
        RowOkElsewhere(s, s', s.txs[id]);
        ReferenceOkElsewhere(s, s', s.txs[id]);
      }
    }
  }

  /** A row stays right when its wallet keeps its owner and currency. */
  lemma RowOkElsewhere(s: Store, s': Store, t: TxRow)
    requires RowOk(s, t)
    requires var w := t.terms.walletId; w in s'.wallets && OwnerOf(s'.wallets[w]) == OwnerOf(s.wallets[w])
    ensures RowOk(s', t)
  {
  }

  /** A resolved reference stays right when processed rows stay as they are. */
  lemma ReferenceOkElsewhere(s: Store, s': Store, t: TxRow)
    requires ReferenceOk(s, t)
    requires Settled(s, s')
    ensures ReferenceOk(s', t)
  {
  }

  lemma OneReversalKept(s: Store, d: Writes)
    requires OneReversal(s) && ReversalFits(s, d)
    ensures OneReversal(Apply(s, d))
  {
    var s' := Apply(s, d);
    forall a, b | a in s'.txs && b in s'.txs && IsReversal(s'.txs[a]) && IsReversal(s'.txs[b])
                  && s'.txs[a].resolvedReferenceId == s'.txs[b].resolvedReferenceId
      ensures a == b
    {
      var ref := s'.txs[a].resolvedReferenceId;
      if a != b && d.tx.Some? {
        var other := if a == d.tx.value.id then b else a;
        assert other in s.txs && Reverses(s.txs[other], ref);
      }
    }
  }

  /** New events have unused ids, and a balance event is about an existing wallet or the new one. */
  ghost predicate EventsFit(s: Store, d: Writes) {
    && NewEvents(s, d.events)
    && forall e | e in d.events && e.data.WalletBalanceChanged? :: e.walletId in Apply(s, d).wallets
  }

  lemma LegalEventsFit(s: Store, d: Writes)
    requires Legal(s, d)
    ensures EventsFit(s, d)
  {
    hide RowFor, MayWrite, ReferenceOk, NewEvents, DirectionOfRow, TermsOk, HasProcessedReversal, Taken;
    if SilentCommit(d) || (OpenCommit(s, d) && d.events == []) {
      assert NewEvents(s, d.events) by { NoNewEvents(s); }
    }
  }

  lemma NoNewEvents(s: Store)
    ensures NewEvents(s, [])
  {
  }

  lemma EventsKept(s: Store, d: Writes)
    requires Events(s) && WalletFits(s, d) && EventsFit(s, d)
    ensures Events(Apply(s, d))
  {
    var s' := Apply(s, d);
    forall e | e in s'.outbox && e.data.WalletBalanceChanged?
      ensures e.walletId in s'.wallets
    {
      if e in s.outbox {
        assert e.walletId in s.wallets;
      }
    }
  }

  lemma InboxKept(s: Store, d: Writes)
    requires InboxBacked(s) && Extends(s, Apply(s, d))
    requires d.inbox.Some? ==> d.inbox.value.0 !in s.inbox && RowFor(Apply(s, d), d.inbox.value.1)
    ensures InboxBacked(Apply(s, d))
  {
    var s' := Apply(s, d);
    forall m | m in s.inbox
      ensures RowFor(s', s.inbox[m])
    {
      RowForGrows(s, s', s.inbox[m]);
    }
  }

  lemma RowForGrows(s: Store, s': Store, i: Input)
    requires Extends(s, s') && RowFor(s, i)
    ensures RowFor(s', i)
  {
    assert TxGrows(s.txs[s.byKey[i.idempotencyKey]], s'.txs[s.byKey[i.idempotencyKey]]);
  }

  // ---------------------------------------------------------------- entries

  /** The new entry, if there is one, records the new row as its only movement. */
  ghost predicate EntryFits(s: Store, d: Writes) {
    && (d.entry.Some? ==> d.tx.Some? && d.entry.value.transactionId == d.tx.value.id && EntryOk(Apply(s, d), d.entry.value))
    && (d.tx.Some? && Moves(d.tx.value) ==> d.entry.Some?)
  }

  lemma LegalEntryFits(s: Store, d: Writes)
    requires Legal(s, d)
    ensures EntryFits(s, d)
  {
    if RowCommit(s, d) {
    } else if MoveCommit(s, d) {
      MoveEntryFits(s, d);
    } else if OpenCommit(s, d) {
    }
  }

  lemma MoveEntryFits(s: Store, d: Writes)
    requires MoveCommit(s, d)
    ensures EntryOk(Apply(s, d), d.entry.value)
  {
    var t, s' := d.tx.value, Apply(s, d);
    if t.terms.kind == Rollback {
      assert t.resolvedReferenceId in s.txs;
      assert t.id in s.txs ==> s.txs[t.id].status == PendingReference;
      assert s'.txs[t.resolvedReferenceId] == s.txs[t.resolvedReferenceId];
    }
  }

  lemma EntriesKept(s: Store, d: Writes)
    requires Rows(s) && Entries(s) && WalletFits(s, d) && TxFits(s, d) && EntryFits(s, d)
    ensures Entries(Apply(s, d))
  {
    var s' := Apply(s, d);
    SettledKept(s, d);
    forall e | e in s'.ledger
      ensures EntryOk(s', e)
    {
      if e in s.ledger {
        EntryOkElsewhere(s, s', e);
      }
    }
    NewMovesOnce(s, d);
    forall id | id in s'.txs && Moves(s'.txs[id])
      ensures HasEntry(s', id)
    {
      EntryFound(s, d, id);
    }
  }

  lemma EntryFound(s: Store, d: Writes, id: Id)
    requires Entries(s) && EntryFits(s, d)
    requires id in Apply(s, d).txs && Moves(Apply(s, d).txs[id])
    ensures HasEntry(Apply(s, d), id)
  {
    var s' := Apply(s, d);
    if d.tx.Some? && id == d.tx.value.id {
      assert s'.ledger[|s.ledger|].transactionId == id;
    } else {
      assert HasEntry(s, id);
      var i :| 0 <= i < |s.ledger| && s.ledger[i].transactionId == id;
      assert s'.ledger[i].transactionId == id;
    }
  }

  lemma NewMovesOnce(s: Store, d: Writes)
    requires Entries(s) && EntryFits(s, d)
    requires d.tx.Some? ==> MayWrite(s, d.tx.value)
    ensures var l := Apply(s, d).ledger; forall i, j | 0 <= i < j < |l| :: l[i].transactionId != l[j].transactionId
  {
    var l := Apply(s, d).ledger;
    forall i, j | 0 <= i < j < |l|
      ensures l[i].transactionId != l[j].transactionId
    {
      assert l[i] == s.ledger[i];
      assert EntryOk(s, s.ledger[i]);
    }
  }

  lemma EntryOkElsewhere(s: Store, s': Store, e: Entry)
    requires Rows(s) && EntryOk(s, e)
    requires Settled(s, s')
    ensures EntryOk(s', e)
  {
    var t := s.txs[e.transactionId];
    assert RowOk(s, t) && ReferenceOk(s, t);
  }

  // ---------------------------------------------------------------- accounts

  lemma EntriesAppended(ledger: seq<Entry>, e: Entry, walletId: Id)
    ensures EntriesOf(ledger + [e], walletId) == EntriesOf(ledger, walletId) + if e.walletId == walletId then [e] else []
  {
    assert (ledger + [e])[..|ledger|] == ledger;
  }

  lemma OtherEventsAppended(outbox: seq<Event>, events: seq<Event>, walletId: Id)
    requires forall e | e in events :: !(e.data.WalletBalanceChanged? && e.walletId == walletId)
    ensures BalanceEventsOf(outbox + events, walletId) == BalanceEventsOf(outbox, walletId)
  {
    if events == [] {
      assert outbox + events == outbox;
    } else {
      var front, last := events[..|events| - 1], events[|events| - 1];
      OtherEventsAppended(outbox, front, walletId);
      assert (outbox + events)[..|outbox + events| - 1] == outbox + front;
      assert (outbox + events)[|outbox + events| - 1] == last;
    }
  }

  lemma BalanceEventAppended(outbox: seq<Event>, events: seq<Event>, walletId: Id)
    requires |events| == 2 && !events[0].data.WalletBalanceChanged? && events[1].data.WalletBalanceChanged?
    ensures BalanceEventsOf(outbox + events, walletId)
         == BalanceEventsOf(outbox, walletId) + if events[1].walletId == walletId then [events[1]] else []
  {
    OtherEventsAppended(outbox, [events[0]], walletId);
    assert outbox + events == outbox + [events[0]] + [events[1]];
    assert (outbox + events)[..|outbox| + 1] == outbox + [events[0]];
  }

  /** A wallet none of whose entries and balance events change keeps its books. */
  lemma AccountKept(s: Store, d: Writes, id: Id)
    requires Indexed(s) && Entries(s) && (d.tx.Some? ==> MayWrite(s, d.tx.value))
    requires id in s.wallets && Books(s, s.wallets[id]) && Announced(s, s.wallets[id])
    requires Apply(s, d).wallets[id] == s.wallets[id]
    requires EntriesOf(Apply(s, d).ledger, id) == EntriesOf(s.ledger, id)
    requires BalanceEventsOf(Apply(s, d).outbox, id) == BalanceEventsOf(s.outbox, id)
    ensures Books(Apply(s, d), Apply(s, d).wallets[id]) && Announced(Apply(s, d), Apply(s, d).wallets[id])
  {
    OpeningsKept(s, d, id);
  }

  lemma OpeningsKept(s: Store, d: Writes, id: Id)
    requires Entries(s) && (d.tx.Some? ==> d.tx.value.id !in s.txs || s.txs[d.tx.value.id].terms == d.tx.value.terms)
    ensures forall e | e in EntriesOf(s.ledger, id) :: IsOpening(Apply(s, d), e.transactionId) == IsOpening(s, e.transactionId)
  {
    forall e | e in EntriesOf(s.ledger, id)
      ensures IsOpening(Apply(s, d), e.transactionId) == IsOpening(s, e.transactionId)
    {
      assert EntryOk(s, e);
    }
  }

  lemma ChainContinued(es: seq<Entry>, e: Entry, currency: string)
    requires Chained(es, currency)
    requires e.balanceBefore.minorUnits == BalanceAt(es, |es|) >= 0
    requires e.balanceAfter.minorUnits == e.balanceBefore.minorUnits + Signed(e.direction, e.amount) >= 0
    requires e.amount.minorUnits > 0
    requires e.amount.currency == e.balanceBefore.currency == e.balanceAfter.currency == currency
    ensures Chained(es + [e], currency)
  {
    var es' := es + [e];
    forall i | 0 <= i < |es'|
      ensures Link(es', i, currency)
    {
      assert i < |es| ==> Link(es, i, currency);
      assert BalanceAt(es', i) == BalanceAt(es, i);
    }
  }

  lemma OpeningsContinued(s: Store, s': Store, id: Id, e: Entry)
    requires EntriesOf(s'.ledger, id) == EntriesOf(s.ledger, id) + [e]
    requires forall x | x in EntriesOf(s.ledger, id) :: IsOpening(s', x.transactionId) == IsOpening(s, x.transactionId)
    requires !IsOpening(s', e.transactionId)
    requires var es := EntriesOf(s.ledger, id); forall i | 0 < i < |es| :: !IsOpening(s, es[i].transactionId)
    ensures OpenedPositive(s', id) == OpenedPositive(s, id)
    ensures var es := EntriesOf(s'.ledger, id); forall i | 0 < i < |es| :: !IsOpening(s', es[i].transactionId)
  {
    var es := EntriesOf(s.ledger, id);
    assert es != [] ==> es[0] in es;
    forall i | 0 < i < |es + [e]|
      ensures !IsOpening(s', (es + [e])[i].transactionId)
    {
      assert i < |es| ==> es[i] in es;
    }
  }

  /** The books of a wallet after one more entry, which continues the chain. */
  lemma BooksContinued(s: Store, s': Store, w: WalletRow, w': WalletRow, e: Entry)
    requires Books(s, w) && w'.id == w.id && w'.version == w.version + 1
    requires EntriesOf(s'.ledger, w.id) == EntriesOf(s.ledger, w.id) + [e]
    requires forall x | x in EntriesOf(s.ledger, w.id) :: IsOpening(s', x.transactionId) == IsOpening(s, x.transactionId)
    requires !IsOpening(s', e.transactionId)
    requires e.balanceBefore == w.balance && e.balanceAfter == w'.balance && w'.balance.currency == w.balance.currency == e.amount.currency
    requires w'.balance.minorUnits == w.balance.minorUnits + Signed(e.direction, e.amount)
    requires e.amount.minorUnits > 0 && w.balance.minorUnits >= 0 && w'.balance.minorUnits >= 0
    ensures Books(s', w') && OpenedPositive(s', w.id) == OpenedPositive(s, w.id)
  {
    ChainContinued(EntriesOf(s.ledger, w.id), e, w.balance.currency);
    OpeningsContinued(s, s', w.id, e);
  }

  lemma AnnouncedContinued(s: Store, s': Store, w: WalletRow, w': WalletRow, e: Entry, ev: Event)
    requires Announced(s, w) && Books(s, w) && w'.id == w.id && w'.version == w.version + 1
    requires EntriesOf(s'.ledger, w.id) == EntriesOf(s.ledger, w.id) + [e]
    requires BalanceEventsOf(s'.outbox, w.id) == BalanceEventsOf(s.outbox, w.id) + [ev]
    requires Announces(ev, e, w'.version)
    requires OpenedPositive(s', w.id) == OpenedPositive(s, w.id)
    ensures Announced(s', w')
  {
  }

  lemma MovedAccount(s: Store, d: Writes)
    requires Entries(s) && MoveCommit(s, d)
    requires var w := s.wallets[d.tx.value.terms.walletId]; Books(s, w) && Announced(s, w) && WalletOk(w)
    ensures Books(Apply(s, d), d.wallet.value) && Announced(Apply(s, d), d.wallet.value)
  {
    hide Entries, Books, Announced, OpenedPositive, NewEvents, Taken, ReferenceOk, HasProcessedReversal;
    var s' := Apply(s, d);
    var id, e, ev := d.tx.value.terms.walletId, d.entry.value, d.events[1];
    var w, w' := s.wallets[id], d.wallet.value;
    EntriesAppended(s.ledger, e, id);
    BalanceEventAppended(s.outbox, d.events, id);
    OpeningsKept(s, d, id);
    assert Books(s', w') && OpenedPositive(s', id) == OpenedPositive(s, id) by {
      BooksContinued(s, s', w, w', e);
    }
    assert Announced(s', w') by {
      AnnouncedContinued(s, s', w, w', e, ev);
    }
  }

  lemma OpenedAccount(s: Store, d: Writes)
    requires Entries(s) && Events(s) && OpenCommit(s, d)
    ensures Books(Apply(s, d), d.wallet.value) && Announced(Apply(s, d), d.wallet.value)
  {
    var s' := Apply(s, d);
    var w := d.wallet.value;
    NothingYet(s, w.id);
    if w.balance.minorUnits != 0 {
      var e, ev := d.entry.value, d.events[1];
      EntriesAppended(s.ledger, e, w.id);
      BalanceEventAppended(s.outbox, d.events, w.id);
      FirstEntry(s', w, e, ev);
    } else {
      assert s'.ledger == s.ledger && s'.outbox == s.outbox;
    }
  }

  lemma FirstEntry(s: Store, w: WalletRow, e: Entry, ev: Event)
    requires EntriesOf(s.ledger, w.id) == [e] && BalanceEventsOf(s.outbox, w.id) == [ev]
    requires IsOpening(s, e.transactionId) && w.version == 1
    requires e.balanceBefore == Money(0, w.balance.currency) && e.balanceAfter == e.amount == w.balance && w.balance.minorUnits > 0
    requires e.direction == Credit && Announces(ev, e, 1)
    ensures Books(s, w) && Announced(s, w)
  {
  }

  lemma NothingYet(s: Store, id: Id)
    requires Entries(s) && Events(s) && id !in s.wallets
    ensures EntriesOf(s.ledger, id) == [] && BalanceEventsOf(s.outbox, id) == []
  {
    forall e | e in s.ledger
      ensures e.walletId != id
    {
      assert EntryOk(s, e);
    }
    NoEntries(s.ledger, id);
    NoBalanceEvents(s.outbox, id);
  }

  lemma NoEntries(ledger: seq<Entry>, id: Id)
    requires forall e | e in ledger :: e.walletId != id
    ensures EntriesOf(ledger, id) == []
  {
  }

  lemma NoBalanceEvents(outbox: seq<Event>, id: Id)
    requires forall e | e in outbox && e.data.WalletBalanceChanged? :: e.walletId != id
    ensures BalanceEventsOf(outbox, id) == []
  {
  }

  lemma WrittenAccount(s: Store, d: Writes)
    requires Indexed(s) && Rows(s) && Accounts(s) && Entries(s) && Events(s) && Legal(s, d) && d.wallet.Some?
    ensures Books(Apply(s, d), d.wallet.value) && Announced(Apply(s, d), d.wallet.value)
  {
    hide Entries, Events, Books, Announced, NewEvents, ReferenceOk, HasProcessedReversal, TermsOk, RowFor, KeysOk,
         OpsOk, OwnersOk,
         Announces, Apply;
    if MoveCommit(s, d) {
      MovedAccount(s, d);
    } else {
      OpenedAccount(s, d);
    }
  }

  lemma AccountsKept(s: Store, d: Writes)
    requires Indexed(s) && Rows(s) && Accounts(s) && Entries(s) && Events(s) && Legal(s, d) && TxFits(s, d)
    ensures Accounts(Apply(s, d))
  {
    hide Rows, Entries, Events, Books, Announced, Legal, MayWrite, KeysOk, OpsOk, OwnersOk;
    var s' := Apply(s, d);
    forall id | id in s'.wallets
      ensures Books(s', s'.wallets[id]) && Announced(s', s'.wallets[id])
    {
      if d.wallet.Some? && id == d.wallet.value.id {
        WrittenAccount(s, d);
      } else {
        OtherAccountUntouched(s, d, id);
        AccountKept(s, d, id);
      }
    }
  }

  /** A commit adds neither entries nor balance events to a wallet it does not write. */
  lemma OtherAccountUntouched(s: Store, d: Writes, id: Id)
    requires Legal(s, d) && !(d.wallet.Some? && id == d.wallet.value.id)
    ensures EntriesOf(Apply(s, d).ledger, id) == EntriesOf(s.ledger, id)
    ensures BalanceEventsOf(Apply(s, d).outbox, id) == BalanceEventsOf(s.outbox, id)
  {
    if d.entry.Some? {
      EntriesAppended(s.ledger, d.entry.value, id);
      BalanceEventAppended(s.outbox, d.events, id);
    } else {
      OtherEventsAppended(s.outbox, d.events, id);
    }
  }

  // ---------------------------------------------------------------- main result

  /** Every legal commit keeps the invariant of the store, and the new state extends the old one. */
  lemma LegalKeepsInv(s: Store, d: Writes)
    requires StoreInv(s) && Legal(s, d)
    ensures StoreInv(Apply(s, d)) && Extends(s, Apply(s, d))
  {
    LegalIsGentle(s, d);
    LegalEntryFits(s, d);
    LegalEventsFit(s, d);
    IndexedKept(s, d);
    GrowsKept(s, d);
    RowsKept(s, d);
    OneReversalKept(s, d);
    EntriesKept(s, d);
    EventsKept(s, d);
    AccountsKept(s, d);
    InboxKept(s, d);
  }
}
