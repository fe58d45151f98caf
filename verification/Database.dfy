/** The repositories on one connection: a transaction's own view of the database, committed or rolled back whole. */
module Database {
  import opened Wrappers
  import opened Wallet
  import opened WagerTx
  import opened Ledger
  import opened Store

  class Database {
    var committed: Store
    /** What the open transaction sees: the committed state and its own writes. */
    var view: Store

    constructor ()
      ensures committed == EMPTY && view == EMPTY
    {
      committed, view := EMPTY, EMPTY;
    }

    // ---------------------------------------------------------------- unit of work

    method Begin()
      modifies this`view
      ensures view == committed
    {
      view := committed;
    }

    method Commit()
      modifies this
      ensures committed == old(view) == view
    {
      committed := view;
    }

    method Rollback()
      modifies this`view
      ensures view == committed
    {
      view := committed;
    }

    // ---------------------------------------------------------------- wallets

    method FindWallet(id: Id) returns (w: Wallet?, err: Option<Error>)
      ensures id !in view.wallets ==> w == null && err == Some(ErrNotFound)
      ensures id in view.wallets ==> w != null && fresh(w) && w.Row() == view.wallets[id] && err == None
    {
      if id !in view.wallets {
        return null, Some(ErrNotFound);
      }
      w := new Wallet.Rehydrate(view.wallets[id]);
      return w, None;
    }

    /** INSERT: the currency's format, which only a missing currency violates, the primary key and the owner's one wallet
        per currency. */
    method CreateWallet(w: Wallet) returns (err: Option<Error>)
      modifies this`view
      ensures var row := w.Row();
        if row.balance.currency == "" then err == Some(ErrInvalidCurrency) && view == old(view)
        else if row.id in old(view).wallets || (row.playerId, row.balance.currency) in old(view).owners
        then err == Some(ErrAlreadyExists) && view == old(view)
        else err == None && view == old(view).(wallets := old(view).wallets[row.id := row],
                                               owners := old(view).owners[(row.playerId, row.balance.currency) := row.id])
    {
      var row := w.Row();
      if row.balance.currency == "" {
        return Some(ErrInvalidCurrency);
      }
      if row.id in view.wallets || (row.playerId, row.balance.currency) in view.owners {
        return Some(ErrAlreadyExists);
      }
      view := view.(wallets := view.wallets[row.id := row], owners := view.owners[(row.playerId, row.balance.currency) := row.id]);
      return None;
    }

    /** UPDATE ... WHERE id = $4 AND version = $5: only balance, version and time are written. */
    method SaveWallet(w: Wallet, previousVersion: nat) returns (err: Option<Error>)
      modifies this`view
      ensures var row := w.Row();
        if row.id in old(view).wallets && old(view).wallets[row.id].version == previousVersion
        then err == None
             && view == old(view).(wallets := old(view).wallets[row.id := old(view).wallets[row.id].(
                                     balance := row.balance.(currency := old(view).wallets[row.id].balance.currency),
                                     version := row.version, updatedAt := row.updatedAt)])
        else err == Some(ErrOptimisticLock) && view == old(view)
    {
      var row := w.Row();
      if row.id !in view.wallets || view.wallets[row.id].version != previousVersion {
        return Some(ErrOptimisticLock);
      }
      var stored := view.wallets[row.id];
      view := view.(wallets := view.wallets[row.id := stored.(
        balance := row.balance.(currency := stored.balance.currency), version := row.version, updatedAt := row.updatedAt)]);
      return None;
    }

    // ---------------------------------------------------------------- transactions

    method Load(row: TxRow) returns (t: WagerTransaction)
      ensures fresh(t) && t.Row() == row
    {
      t := new WagerTransaction.Rehydrate(row);
    }

    method FindTx(id: Id) returns (t: WagerTransaction?, err: Option<Error>)
      ensures id !in view.txs ==> t == null && err == Some(ErrNotFound)
      ensures id in view.txs ==> t != null && fresh(t) && t.Row() == view.txs[id] && err == None
    {
      if id !in view.txs {
        return null, Some(ErrNotFound);
      }
      t := Load(view.txs[id]);
      return t, None;
    }

    method FindTxByKey(key: string) returns (t: WagerTransaction?)
      ensures t == null <==> FindByKey(view, key) == None
      ensures t != null ==> fresh(t) && FindByKey(view, key) == Some(t.Row())
    {
      t := null;
      if FindByKey(view, key).Some? {
        t := Load(FindByKey(view, key).value);
      }
    }

    method FindTxByOp(providerId: string, externalId: string) returns (t: WagerTransaction?)
      ensures t == null <==> FindByOp(view, providerId, externalId) == None
      ensures t != null ==> fresh(t) && FindByOp(view, providerId, externalId) == Some(t.Row())
    {
      t := null;
      if FindByOp(view, providerId, externalId).Some? {
        t := Load(FindByOp(view, providerId, externalId).value);
      }
    }

    /** INSERT: the primary key, the idempotency key and the provider's operation must be unused. */
    method CreateTx(t: WagerTransaction) returns (err: Option<Error>)
      modifies this`view
      ensures if Taken(old(view), t.Row()) then err == Some(ErrAlreadyExists) && view == old(view)
              else err == None && view == PutTx(old(view), t.Row())
    {
      var row := t.Row();
      if Taken(view, row) {
        return Some(ErrAlreadyExists);
      }
      view := PutTx(view, row);
      return None;
    }

    /** UPDATE ... WHERE id = $9: no guard on the status, and the terms are never written. */
    method UpdateTx(t: WagerTransaction) returns (err: Option<Error>)
      modifies this`view
      ensures if t.id in old(view).txs
              then err == None && view == old(view).(txs := old(view).txs[t.id := t.Row().(terms := old(view).txs[t.id].terms)])
              else err == Some(ErrNotFound) && view == old(view)
    {
      if t.id !in view.txs {
        return Some(ErrNotFound);
      }
      view := view.(txs := view.txs[t.id := t.Row().(terms := view.txs[t.id].terms)]);
      return None;
    }

    // ---------------------------------------------------------------- ledger, outbox, inbox

    method CreateEntry(e: Entry) returns (err: Option<Error>)
      modifies this`view
      ensures if exists x | x in old(view).ledger :: x.id == e.id || (x.walletId == e.walletId && x.transactionId == e.transactionId)
              then err == Some(ErrAlreadyExists) && view == old(view)
              else err == None && view == old(view).(ledger := old(view).ledger + [e])
    {
      if exists x | x in view.ledger :: x.id == e.id || (x.walletId == e.walletId && x.transactionId == e.transactionId) {
        return Some(ErrAlreadyExists);
      }
      view := view.(ledger := view.ledger + [e]);
      return None;
    }

    method CreateEvent(e: Event) returns (err: Option<Error>)
      modifies this`view
      ensures if exists x | x in old(view).outbox :: x.id == e.id then err == Some(ErrAlreadyExists) && view == old(view)
              else err == None && view == old(view).(outbox := old(view).outbox + [e])
    {
      if exists x | x in view.outbox :: x.id == e.id {
        return Some(ErrAlreadyExists);
      }
      view := view.(outbox := view.outbox + [e]);
      return None;
    }

    /** INSERT ... ON CONFLICT DO NOTHING: a known message id is reported, and the transaction goes on. */
    method CreateInbox(messageId: string, body: Input) returns (err: Option<Error>)
      modifies this`view
      ensures if messageId in old(view).inbox then err == Some(ErrAlreadyExists) && view == old(view)
              else err == None && view == old(view).(inbox := old(view).inbox[messageId := body])
    {
      if messageId in view.inbox {
        return Some(ErrAlreadyExists);
      }
      view := view.(inbox := view.inbox[messageId := body]);
      return None;
    }
  }
}
