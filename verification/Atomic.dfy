/** Every use case, run alone on a good state, commits legally: the sequential half of the story. */
module Atomic {
  import opened Wrappers
  import opened Money
  import opened Wallet
  import opened WagerTx
  import opened Store
  import opened Process
  import opened Invariants
  import opened Endings
  import Preservation

  /** A lookup that sees the own uninserted-before row finds a settled row only among the committed ones. */
  lemma FoundElsewhere(s: Store, t: TxRow, providerId: string, externalId: string)
    requires Indexed(s) && t.id !in s.txs && t.status == Pending
    requires FindByOp(PutTx(s, t), providerId, externalId).Some?
    requires FindByOp(PutTx(s, t), providerId, externalId).value.status != Pending
    ensures var ref := FindByOp(PutTx(s, t), providerId, externalId).value;
      FindByOp(s, providerId, externalId) == Some(ref) && ref.id in s.txs && s.txs[ref.id] == ref
      && OpOf(ref.terms) == (providerId, externalId)
  {
  }

  lemma ReversalsElsewhere(s: Store, t: TxRow, referenceId: Id)
    requires t.id !in s.txs && t.status == Pending
    ensures HasProcessedReversal(PutTx(s, t), referenceId) == HasProcessedReversal(s, referenceId)
  {
    if HasProcessedReversal(s, referenceId) {
      var id :| id in s.txs && Reverses(s.txs[id], referenceId);
      assert Reverses(PutTx(s, t).txs[id], referenceId);
    }
  }

  /** The commit writes this transaction's row, and moves money at most for it. */
  ghost predicate Ends(s: Store, t: TxRow, o: Outcome) {
    o.Committed? ==>
      && (RowCommit(s, o.writes) || MoveCommit(s, o.writes))
      && o.writes.inbox == None && o.writes.tx.value.id == t.id && o.writes.tx.value.terms == t.terms
  }

  /** A settled or rejected end on a wallet that is the committed one. */
  lemma FinishLegal(s: Store, t: TxRow, ref: Option<TxRow>, env: Env)
    requires Fresh(s, env) && Writable(s, t) && OnWallet(s, t)
    requires ReferenceReady(s, t)
    requires ref.Some? <==> t.terms.referenceExternalId != ""
    requires ref.Some? ==> t.resolvedReferenceId in s.txs && s.txs[t.resolvedReferenceId] == ref.value
    ensures Ends(s, t, Finish(s.wallets[t.terms.walletId], t, ref, env))
  {
    var w := s.wallets[t.terms.walletId];
    var direction := DirectionOf(t.terms.kind, if ref.Some? then Some(ref.value.terms.kind) else None);
    if direction.None? {
      NoteLegal(s, t, w, env);
    } else if Moved(w, direction.value, t.terms.money, env.now).Ok? {
      assert DirectionOfRow(s, t) == direction;
      SettleLegal(s, t, direction.value, env);
    } else {
      RejectLegal(s, t, w, ShortfallCode(t.terms.kind), env);
    }
  }

  lemma ResolvedReady(s: Store, t: TxRow, ref: TxRow, now: Time)
    requires Writable(s, t) && t.terms.referenceExternalId != "" && ref.status == Processed && ref.id != ""
    requires ref.id in s.txs && s.txs[ref.id] == ref && OpOf(ref.terms) == (t.terms.providerId, t.terms.referenceExternalId)
    requires ValidateReference(t.terms, ref.terms) == NoCode
    requires t.terms.kind == Refund || t.terms.kind == Rollback ==> !HasProcessedReversal(s, ref.id)
    ensures ReferenceResolved(t, ref.id, now).Ok?
    ensures var t' := ReferenceResolved(t, ref.id, now).value; Writable(s, t') && ReferenceReady(s, t')
  {
  }

  /** From a processed reference on; `s` is the committed state, `v` what the transaction sees. */
  lemma WithReferenceLegal(s: Store, v: Store, t: TxRow, ref: TxRow, env: Env)
    requires Fresh(s, env) && Writable(s, t) && OnWallet(s, t)
    requires t.terms.referenceExternalId != "" && ref.status == Processed
    requires ref.id in s.txs && s.txs[ref.id] == ref && ref.id != ""
    requires OpOf(ref.terms) == (t.terms.providerId, t.terms.referenceExternalId)
    requires HasProcessedReversal(v, ref.id) == HasProcessedReversal(s, ref.id)
    ensures Ends(s, t, WithReference(v, s.wallets[t.terms.walletId], t, ref, env))
  {
    var w := s.wallets[t.terms.walletId];
    var code := ValidateReference(t.terms, ref.terms);
    if code != NoCode {
      RejectLegal(s, t, w, code, env);
    } else if (t.terms.kind == Refund || t.terms.kind == Rollback) && HasProcessedReversal(v, ref.id) {
      RejectLegal(s, t, w, ReferenceAlreadyReversed, env);
    } else {
      ResolvedReady(s, t, ref, env.now);
      var t' := ReferenceResolved(t, ref.id, env.now).value;
      FinishLegal(s, t', Some(ref), env);
    }
  }

  lemma AfterInsertLegal(s: Store, t: TxRow, env: Env)
    requires Indexed(s) && Rows(s) && Fresh(s, env) && Writable(s, t)
    requires t.id !in s.txs && t.status == Pending
    ensures Ends(s, t, AfterInsert(PutTx(s, t), s.wallets[t.terms.walletId], t, env))
  {
    var w, v := s.wallets[t.terms.walletId], PutTx(s, t);
    if w.balance.currency != t.terms.money.currency {
      RejectLegal(s, t, w, CurrencyMismatch, env);
    } else if t.terms.referenceExternalId == "" {
      FinishLegal(s, t, None, env);
    } else {
      var found := FindByOp(v, t.terms.providerId, t.terms.referenceExternalId);
      if found.None? || (found.value.status != Processed && !IsTerminal(found.value.status)) {
        ParkLegal(s, t, w, env);
      } else if found.value.status != Processed {
        RejectLegal(s, t, w, ReferenceNotProcessable, env);
      } else {
        FoundElsewhere(s, t, t.terms.providerId, t.terms.referenceExternalId);
        ReversalsElsewhere(s, t, found.value.id);
        WithReferenceLegal(s, v, t, found.value, env);
      }
    }
  }

  lemma NewRowWritable(s: Store, i: Input, env: Env)
    requires Indexed(s) && Rows(s) && i.walletId in s.wallets
    requires NewExternal(env.txId, i, s.wallets[i.walletId], env.now).Ok?
    requires !Taken(s, NewExternal(env.txId, i, s.wallets[i.walletId], env.now).value)
    ensures var t := NewExternal(env.txId, i, s.wallets[i.walletId], env.now).value;
      && Writable(s, t) && t.terms.idempotencyKey != "" && t.terms.walletId == i.walletId
      && t.terms.idempotencyKey == i.idempotencyKey && t.terms.payloadHash == Some(CanonicalOf(i))
  {
    assert WalletOk(s.wallets[i.walletId]);
  }

  /** An attempt that commits has inserted its row and gone on from there. */
  lemma AttemptInserts(s: Store, i: Input, env: Env)
    requires Attempt(s, i, env).Committed?
    ensures i.walletId in s.wallets && NewExternal(env.txId, i, s.wallets[i.walletId], env.now).Ok?
    ensures var w := s.wallets[i.walletId];
      var t := NewExternal(env.txId, i, w, env.now).value;
      !Taken(s, t) && Attempt(s, i, env) == AfterInsert(PutTx(s, t), w, t, env)
  {
  }

  lemma AttemptLegal(s: Store, i: Input, env: Env)
    requires Indexed(s) && Rows(s) && Fresh(s, env)
    requires Attempt(s, i, env).Committed?
    ensures var d := Attempt(s, i, env).writes;
      (RowCommit(s, d) || MoveCommit(s, d)) && d.inbox == None && RowFor(Apply(s, d), i)
  {
    AttemptInserts(s, i, env);
    NewRowWritable(s, i, env);
    var t := NewExternal(env.txId, i, s.wallets[i.walletId], env.now).value;
    var o := AfterInsert(PutTx(s, t), s.wallets[i.walletId], t, env);
    AfterInsertLegal(s, t, env);
    assert RowFor(Apply(s, o.writes), i) by {
      RowForNew(s, o.writes, i);
    }
  }

  lemma RowForNew(s: Store, d: Writes, i: Input)
    requires d.tx.Some? && d.tx.value.terms.idempotencyKey == i.idempotencyKey != ""
    requires d.tx.value.terms.payloadHash == Some(CanonicalOf(i))
    ensures RowFor(Apply(s, d), i)
  {
  }

  lemma WaitingIsWritable(s: Store, id: Id)
    requires Indexed(s) && Rows(s) && id in s.txs && s.txs[id].status == PendingReference
    ensures Writable(s, s.txs[id]) && OnWallet(s, s.txs[id]) && s.txs[id].terms.referenceExternalId != ""
  {
    assert RowOk(s, s.txs[id]);
  }

  lemma ResumeLegal(s: Store, id: Id, env: Env)
    requires Indexed(s) && Rows(s) && Fresh(s, env)
    requires Resume(s, id, env).Committed?
    ensures Ends(s, s.txs[id], Resume(s, id, env))
  {
    WaitingIsWritable(s, id);
    var t := s.txs[id];
    var found := FindByOp(s, t.terms.providerId, t.terms.referenceExternalId);
    if found.None? || found.value.status != Processed {
      WaitLegal(s, t, s.wallets[t.terms.walletId], env);
    } else {
      WithReferenceLegal(s, s, t, found.value, env);
    }
  }

  /** The committed part of an outcome; outcomes that are not commits leave the state alone. */
  function After(s: Store, o: Outcome): Store {
    if o.Committed? then Apply(s, o.writes) else s
  }

  datatype Call = CallAttempt(input: Input) | CallResume(id: Id) | CallExpire(id: Id) | CallOpen(playerId: Id, balance: Money)

  function Run(s: Store, c: Call, env: Env): Outcome {
    match c
    case CallAttempt(i) => Attempt(s, i, env)
    case CallResume(id) => Resume(s, id, env)
    case CallExpire(id) => Expire(s, id, env)
    case CallOpen(p, b) => Open(s, p, b, env)
  }

  lemma RunLegal(s: Store, c: Call, env: Env)
    requires Indexed(s) && Rows(s) && Fresh(s, env) && Run(s, c, env).Committed?
    ensures Legal(s, Run(s, c, env).writes)
  {
    hide Rows, RowCommit, MoveCommit, OpenCommit;
    match c {
      case CallAttempt(i) => AttemptLegal(s, i, env);
      case CallResume(id) => ResumeLegal(s, id, env);
      case CallExpire(id) => WaitingIsWritable(s, id); ExpireLegal(s, id, env);
      case CallOpen(p, b) => OpenLegal(s, p, b, env);
    }
  }

  /** Any call, whatever its outcome, takes a good state to a good state that extends it. */
  lemma RunKeepsInv(s: Store, c: Call, env: Env)
    requires StoreInv(s) && Fresh(s, env)
    ensures StoreInv(After(s, Run(s, c, env))) && Extends(s, After(s, Run(s, c, env)))
  {
    if Run(s, c, env).Committed? {
      RunLegal(s, c, env);
      Preservation.LegalKeepsInv(s, Run(s, c, env).writes);
    } else {
      ExtendsReflexive(s);
    }
  }

  lemma EmptyStoreGood()
    ensures StoreInv(EMPTY)
  {
  }
}
