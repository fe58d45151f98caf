/** Out-of-order references: waiting for a reference and being resumed ends as arriving after it would have. */
module LateReference {
  import opened Wrappers
  import opened Money
  import opened Wallet
  import opened WagerTx
  import opened Ledger
  import opened Store
  import opened Process
  import opened Invariants
  import opened Atomic
  import opened Commits

  // ---------------------------------------------------------------- equal up to identifiers and clocks

  /** The two wallets differ at most in when they were last written. */
  predicate SameWallet(a: Option<WalletRow>, b: Option<WalletRow>) {
    match (a, b)
    case (Some(v), Some(w)) => v == w.(updatedAt := v.updatedAt)
    case (None, None) => true
    case _ => false
  }

  predicate SameMovement(a: Option<Entry>, b: Option<Entry>) {
    match (a, b)
    case (Some(d), Some(e)) => d == e.(id := d.id, createdAt := d.createdAt)
    case (None, None) => true
    case _ => false
  }

  predicate SameTerms(a: Terms, b: Terms) {
    a == b.(createdAt := a.createdAt)
  }

  /** The rows tell the same: identity, terms, status, reference, failure code and recorded balance. */
  predicate SameRow(a: TxRow, b: TxRow) {
    && a.id == b.id && SameTerms(a.terms, b.terms) && a.status == b.status && a.resolvedReferenceId == b.resolvedReferenceId
    && a.failureCode == b.failureCode && a.financialResult == b.financialResult
  }

  predicate SameEnd(a: Outcome, b: Outcome) {
    match (a, b)
    case (Committed(d, p), Committed(e, q)) =>
      && SameWallet(d.wallet, e.wallet) && SameMovement(d.entry, e.entry)
      && d.tx.Some? && e.tx.Some? && SameRow(d.tx.value, e.tx.value) && p == q
    case (Refused(e), Refused(f)) => e == f
    case _ => false
  }

  // ---------------------------------------------------------------- the endings agree

  /** Two forms of one transaction: waiting, and just built. */
  predicate SameOpen(a: TxRow, b: TxRow) {
    && a.id == b.id && SameTerms(a.terms, b.terms) && a.resolvedReferenceId == b.resolvedReferenceId
    && a.failureCode == b.failureCode && a.financialResult == b.financialResult && IsOpen(a.status) && IsOpen(b.status)
  }

  lemma RejectAgrees(a: TxRow, b: TxRow, w: WalletRow, code: FailureCode, env: Env, env': Env)
    requires SameOpen(a, b)
    ensures SameEnd(Reject(a, w, code, env), Reject(b, w, code, env'))
  {
  }

  lemma MovedAgrees(w: WalletRow, direction: Direction, amount: Money, now: Time, now': Time)
    ensures var r, q := Moved(w, direction, amount, now), Moved(w, direction, amount, now');
      && (r.Ok? <==> q.Ok?)
      && (r.Ok? ==> r.value == q.value.(updatedAt := now) && q.value.updatedAt == now')
      && (r.Err? ==> r == q)
  {
  }

  lemma SettleAgrees(a: TxRow, b: TxRow, w: WalletRow, v: WalletRow, v': WalletRow, direction: Direction, env: Env, env': Env)
    requires SameOpen(a, b) && v == v'.(updatedAt := v.updatedAt) && (env.entryId == "" <==> env'.entryId == "")
    ensures SameEnd(Settle(a, w, v, direction, env), Settle(b, w, v', direction, env'))
  {
  }

  lemma FinishAgrees(w: WalletRow, a: TxRow, b: TxRow, ref: TxRow, env: Env, env': Env)
    requires SameOpen(a, b) && (env.entryId == "" <==> env'.entryId == "")
    ensures SameEnd(Finish(w, a, Some(ref), env), Finish(w, b, Some(ref), env'))
  {
    hide Moved, Reject, Settle;
    var direction := DirectionOf(a.terms.kind, Some(ref.terms.kind));
    if direction.Some? {
      MovedAgrees(w, direction.value, a.terms.money, env.now, env'.now);
      RejectAgrees(a, b, w, ShortfallCode(a.terms.kind), env, env');
      var r, q := Moved(w, direction.value, a.terms.money, env.now), Moved(w, direction.value, a.terms.money, env'.now);
      if r.Ok? {
        SettleAgrees(a, b, w, r.value, q.value, direction.value, env, env');
      }
    }
  }

  lemma WithReferenceAgrees(s: Store, s': Store, w: WalletRow, a: TxRow, b: TxRow, ref: TxRow, env: Env, env': Env)
    requires SameOpen(a, b) && (env.entryId == "" <==> env'.entryId == "")
    requires HasProcessedReversal(s, ref.id) == HasProcessedReversal(s', ref.id)
    ensures SameEnd(WithReference(s, w, a, ref, env), WithReference(s', w, b, ref, env'))
  {
    hide Reject, Finish, HasProcessedReversal;
    var code := ValidateReference(a.terms, ref.terms);
    assert ValidateReference(b.terms, ref.terms) == code;
    RejectAgrees(a, b, w, code, env, env');
    RejectAgrees(a, b, w, ReferenceAlreadyReversed, env, env');
    if ReferenceResolved(a, ref.id, env.now).Ok? {
      FinishAgrees(w, ReferenceResolved(a, ref.id, env.now).value, ReferenceResolved(b, ref.id, env'.now).value, ref, env, env');
    }
  }

  // ---------------------------------------------------------------- a waiting row changes nothing for others

  /** The second state has one row more, which is waiting; wallets and indexes agree otherwise. */
  ghost predicate OneMoreWaiting(s: Store, s': Store, t: TxRow) {
    && !Taken(s, t) && t.status == PendingReference && t.terms.idempotencyKey != "" && t.terms.providerId != ""
    && s'.wallets == s.wallets && s'.txs == s.txs[t.id := t]
    && s'.byKey == s.byKey[t.terms.idempotencyKey := t.id] && s'.byOp == s.byOp[OpOf(t.terms) := t.id]
  }

  lemma ReversalsUnaffected(s: Store, s': Store, t: TxRow, referenceId: Id)
    requires OneMoreWaiting(s, s', t)
    ensures HasProcessedReversal(s', referenceId) == HasProcessedReversal(s, referenceId)
  {
    if HasProcessedReversal(s, referenceId) {
      var r :| r in s.txs && Reverses(s.txs[r], referenceId);
      assert Reverses(s'.txs[r], referenceId);
    }
  }

  /** Other rows can be added on both sides without disturbing the relation. */
  lemma PutBoth(s: Store, s': Store, t: TxRow, u: TxRow)
    requires OneMoreWaiting(s, s', t) && !Taken(s', u)
    ensures !Taken(s, u) && OneMoreWaiting(PutTx(s, u), PutTx(s', u), t)
  {
    hide Taken;
    TakenApart(s, s', t, u);
    Swap(s.txs, t.id, t, u.id, u);
    Swap(s.byKey, t.terms.idempotencyKey, t.id, u.terms.idempotencyKey, u.id);
    Swap(s.byOp, OpOf(t.terms), t.id, OpOf(u.terms), u.id);
    TakenAfter(s, t, u);
  }

  lemma Swap<K, V>(m: map<K, V>, a: K, x: V, b: K, y: V)
    requires a != b
    ensures m[a := x][b := y] == m[b := y][a := x]
  {
  }

  /** A row that is free beside the waiting one is free without it, and shares neither identifier nor key with it. */
  lemma TakenApart(s: Store, s': Store, t: TxRow, u: TxRow)
    requires OneMoreWaiting(s, s', t) && !Taken(s', u)
    ensures !Taken(s, u) && u.id != t.id && u.terms.idempotencyKey != t.terms.idempotencyKey && OpOf(u.terms) != OpOf(t.terms)
  {
  }

  lemma TakenAfter(s: Store, t: TxRow, u: TxRow)
    requires !Taken(s, t) && u.id != t.id && u.terms.idempotencyKey != t.terms.idempotencyKey && OpOf(u.terms) != OpOf(t.terms)
    ensures !Taken(PutTx(s, u), t)
  {
  }

  lemma OthersFoundAlike(s: Store, s': Store, t: TxRow, providerId: string, externalId: string)
    requires OneMoreWaiting(s, s', t) && Closed(s)
    ensures FindByOp(s', providerId, externalId)
         == if (providerId, externalId) == OpOf(t.terms) then Some(t) else FindByOp(s, providerId, externalId)
  {
  }

  /** Index entries point at rows. */
  ghost predicate Closed(s: Store) {
    && (forall k | k in s.byKey :: s.byKey[k] in s.txs)
    && (forall o | o in s.byOp :: s.byOp[o] in s.txs)
  }

  lemma PutClosed(s: Store, u: TxRow)
    requires Closed(s)
    ensures Closed(PutTx(s, u))
  {
  }

  lemma KeysFoundAlike(s: Store, s': Store, t: TxRow, key: string)
    requires OneMoreWaiting(s, s', t) && Closed(s) && key != t.terms.idempotencyKey
    ensures FindByKey(s', key) == FindByKey(s, key)
  {
  }

  lemma TakenAlike(s: Store, s': Store, t: TxRow, u: TxRow)
    requires OneMoreWaiting(s, s', t)
    requires u.id != t.id && u.terms.idempotencyKey != t.terms.idempotencyKey && OpOf(u.terms) != OpOf(t.terms)
    ensures Taken(s, u) == Taken(s', u)
  {
  }

  lemma WalletsShared(s: Store, s': Store, t: TxRow)
    requires OneMoreWaiting(s, s', t)
    ensures s'.wallets == s.wallets
  {
  }

  /** Before its insert, an attempt looks at its own key, its own operation and its wallet only. */
  lemma LookupsAlike(s: Store, s': Store, t: TxRow, j: Input)
    requires OneMoreWaiting(s, s', t) && Closed(s)
    requires j.idempotencyKey != t.terms.idempotencyKey && (j.providerId, j.externalId) != OpOf(t.terms)
    ensures ResolveByKey(s', j) == ResolveByKey(s, j) && ResolveByOp(s', j) == ResolveByOp(s, j)
  {
    hide OneMoreWaiting, Closed, FindByKey, FindByOp, CanonicalOf;
    KeysFoundAlike(s, s', t, j.idempotencyKey);
    OthersFoundAlike(s, s', t, j.providerId, j.externalId);
    WalletsShared(s, s', t);
  }

  /** An attempt at another request ends the same where the waiting row is missing. */
  lemma AttemptUnaffected(s: Store, s': Store, t: TxRow, j: Input, env: Env)
    requires OneMoreWaiting(s, s', t) && Closed(s) && env.txId != t.id
    requires j.idempotencyKey != t.terms.idempotencyKey && (j.providerId, j.externalId) != OpOf(t.terms)
    ensures Attempt(s', j, env) == Attempt(s, j, env)
  {
    hide NewExternal, AfterInsert, OneMoreWaiting, Taken, Closed, ResolveByKey, ResolveByOp;
    LookupsAlike(s, s', t, j);
    WalletsShared(s, s', t);
    if j.walletId in s.wallets && NewExternal(env.txId, j, s.wallets[j.walletId], env.now).Ok? {
      var w := s.wallets[j.walletId];
      var u := NewExternal(env.txId, j, w, env.now).value;
      NewRowNames(env.txId, j, w, env.now);
      NewRowPlain(env.txId, j, w, env.now);
      TakenAlike(s, s', t, u);
      if !Taken(s', u) {
        PutBoth(s, s', t, u);
        PutClosed(s, u);
        InsertedUnaffected(PutTx(s, u), PutTx(s', u), t, w, u, env);
      }
    }
  }

  /** After the insert the waiting row can be met only as the reference, and then waits like a missing one. */
  lemma InsertedUnaffected(v: Store, v': Store, t: TxRow, w: WalletRow, u: TxRow, env: Env)
    requires OneMoreWaiting(v, v', t) && Closed(v)
    ensures AfterInsert(v', w, u, env) == AfterInsert(v, w, u, env)
  {
    hide Reject, Finish, FindByOp, HasProcessedReversal, ValidateReference, Park;
    OthersFoundAlike(v, v', t, u.terms.providerId, u.terms.referenceExternalId);
    NotYetThere(v, v', t);
    var found := FindByOp(v', u.terms.providerId, u.terms.referenceExternalId);
    if found.Some? {
      ReversalsUnaffected(v, v', t, found.value.id);
    }
  }

  lemma NotYetThere(s: Store, s': Store, t: TxRow)
    requires OneMoreWaiting(s, s', t)
    ensures FindByOp(s, t.terms.providerId, t.terms.externalId) == None && t.status == PendingReference
    ensures t.id in s'.txs && s'.txs[t.id] == t && t.id !in s.txs
  {
  }

  lemma ResumeUnaffected(s: Store, s': Store, t: TxRow, id: Id, env: Env)
    requires OneMoreWaiting(s, s', t) && Closed(s) && id != t.id
    ensures Resume(s', id, env) == Resume(s, id, env)
  {
    hide Reject, Finish, FindByOp, HasProcessedReversal, ValidateReference, Wait, OneMoreWaiting;
    RowsShared(s, s', t, id);
    WalletsShared(s, s', t);
    NotYetThere(s, s', t);
    if id in s.txs {
      OthersFoundAlike(s, s', t, s.txs[id].terms.providerId, s.txs[id].terms.referenceExternalId);
      var found := FindByOp(s', s.txs[id].terms.providerId, s.txs[id].terms.referenceExternalId);
      if found.Some? {
        ReversalsUnaffected(s, s', t, found.value.id);
      }
    }
  }

  lemma RowsShared(s: Store, s': Store, t: TxRow, id: Id)
    requires OneMoreWaiting(s, s', t) && id != t.id
    ensures id in s'.txs <==> id in s.txs
    ensures id in s.txs ==> s'.txs[id] == s.txs[id]
  {
  }

  // ---------------------------------------------------------------- the two orders

  /** The row an attempt parks. */
  lemma ParkedRow(s: Store, i: Input, env: Env)
    requires Closed(s) && Attempt(s, i, env).Committed? && Attempt(s, i, env).out.status == PendingReference
    ensures var w := s.wallets[i.walletId];
      && i.walletId in s.wallets && NewExternal(env.txId, i, w, env.now).Ok?
      && var t := NewExternal(env.txId, i, w, env.now).value.(status := PendingReference);
      && OneMoreWaiting(s, Apply(s, Attempt(s, i, env).writes), t)
      && t.id == env.txId && w.balance.currency == t.terms.money.currency && t.terms.referenceExternalId != ""
  {
    hide NewExternal, ResolveByKey, ResolveByOp, Reject, Finish, FindByOp, HasProcessedReversal, ValidateReference, Taken;
    AttemptInserts(s, i, env);
    var w := s.wallets[i.walletId];
    var t := NewExternal(env.txId, i, w, env.now).value;
    NewRowNames(env.txId, i, w, env.now);
    NewRowPlain(env.txId, i, w, env.now);
    OnlyParkWaits(PutTx(s, t), w, t, env);
    ParkWrites(s, t, w, env);
  }

  lemma NewRowPlain(id: Id, i: Input, w: WalletRow, now: Time)
    requires NewExternal(id, i, w, now).Ok?
    ensures var t := NewExternal(id, i, w, now).value;
      && t.id == id && t.status == Pending && t.updatedAt == now && t.terms.createdAt == now
      && t.terms.referenceExternalId == i.referenceExternalId && t.terms.walletId == w.id && t.terms.money == i.money
      && t.failureCode == NoCode && t.financialResult == None && t.resolvedReferenceId == ""
  {
  }

  lemma EndStatus(t: TxRow, w: WalletRow, w': WalletRow, code: FailureCode, direction: Direction, env: Env)
    ensures Reject(t, w, code, env).Committed? ==> Reject(t, w, code, env).out.status == Rejected
    ensures Note(t, w, env).Committed? ==> Note(t, w, env).out.status == Processed
    ensures Settle(t, w, w', direction, env).Committed? ==> Settle(t, w, w', direction, env).out.status == Processed
    ensures forall o | o == Reject(t, w, code, env) || o == Note(t, w, env) || o == Settle(t, w, w', direction, env) :: o.Committed? || o.Refused?
  {
  }

  lemma FinishStatus(w: WalletRow, t: TxRow, ref: Option<TxRow>, env: Env)
    ensures Finish(w, t, ref, env).Committed? ==> Finish(w, t, ref, env).out.status != PendingReference
    ensures Finish(w, t, ref, env).Committed? || Finish(w, t, ref, env).Refused?
  {
    hide Reject, Note, Settle, Moved;
    EndStatus(t, w, w, ShortfallCode(t.terms.kind), Debit, env);
    var direction := DirectionOf(t.terms.kind, if ref.Some? then Some(ref.value.terms.kind) else None);
    if direction.Some? && Moved(w, direction.value, t.terms.money, env.now).Ok? {
      EndStatus(t, w, Moved(w, direction.value, t.terms.money, env.now).value, NoCode, direction.value, env);
    }
  }

  /** Only parking leaves a row waiting. */
  lemma OnlyParkWaits(v: Store, w: WalletRow, t: TxRow, env: Env)
    requires AfterInsert(v, w, t, env).Committed? && AfterInsert(v, w, t, env).out.status == PendingReference
    ensures AfterInsert(v, w, t, env) == Park(t, w, env) && w.balance.currency == t.terms.money.currency
    ensures t.terms.referenceExternalId != ""
  {
    hide Reject, Finish, FindByOp, HasProcessedReversal, ValidateReference, Park;
    EndStatus(t, w, w, CurrencyMismatch, Debit, env);
    EndStatus(t, w, w, ReferenceNotProcessable, Debit, env);
    EndStatus(t, w, w, ReferenceAlreadyReversed, Debit, env);
    FinishStatus(w, t, None, env);
    var found := FindByOp(v, t.terms.providerId, t.terms.referenceExternalId);
    if found.Some? {
      EndStatus(t, w, w, ValidateReference(t.terms, found.value.terms), Debit, env);
      if ReferenceResolved(t, found.value.id, env.now).Ok? {
        FinishStatus(w, ReferenceResolved(t, found.value.id, env.now).value, found, env);
      }
    }
  }

  lemma ParkWrites(s: Store, t: TxRow, w: WalletRow, env: Env)
    requires !Taken(s, t) && t.status == Pending && t.updatedAt == env.now && t.terms.idempotencyKey != "" && t.terms.providerId != ""
    ensures OneMoreWaiting(s, Apply(s, Park(t, w, env).writes), t.(status := PendingReference))
  {
  }

  /** With the reference processed, resuming the waiting row and attempting the request where it never waited end the
      same: wallet, movement, row and answer. */
  lemma ResumeMatchesAttempt(s: Store, s': Store, t: TxRow, i: Input, env: Env, env': Env)
    requires OneMoreWaiting(s, s', t) && Closed(s) && (env.entryId == "" <==> env'.entryId == "") && env'.txId == t.id
    requires i.walletId in s.wallets && s.wallets[i.walletId].playerId == i.playerId && Supported(i.kind)
    requires NewExternal(t.id, i, s.wallets[i.walletId], env'.now).Ok?
    requires SameOpen(t, NewExternal(t.id, i, s.wallets[i.walletId], env'.now).value)
    requires t.terms.walletId == i.walletId && s.wallets[i.walletId].balance.currency == t.terms.money.currency
    requires t.terms.referenceExternalId != "" && OpOf(t.terms) != (t.terms.providerId, t.terms.referenceExternalId)
    requires FindByOp(s, t.terms.providerId, t.terms.referenceExternalId).Some?
    requires FindByOp(s, t.terms.providerId, t.terms.referenceExternalId).value.status == Processed
    ensures SameEnd(Resume(s', t.id, env), Attempt(s, i, env'))
  {
    hide NewExternal, FindByOp, HasProcessedReversal, ResolveByKey, ResolveByOp, Taken, WithReference, Attempt, SameEnd;
    var w, ref := s.wallets[i.walletId], FindByOp(s, t.terms.providerId, t.terms.referenceExternalId).value;
    var u := NewExternal(t.id, i, w, env'.now).value;
    OthersFoundAlike(s, s', t, t.terms.providerId, t.terms.referenceExternalId);
    assert Resume(s', t.id, env) == WithReference(s', w, t, ref, env);
    NewRowNames(t.id, i, w, env'.now);
    NewRowPlain(t.id, i, w, env'.now);
    TakenByTerms(s, t, u);
    AttemptInsertsRow(s, i, w, u, env');
    FoundBesideOwn(s, u);
    assert AfterInsert(PutTx(s, u), w, u, env') == WithReference(PutTx(s, u), w, u, ref, env');
    ReversalsElsewhere(s, u, ref.id) by { NotTakenId(s, u); }
    ReversalsUnaffected(s, s', t, ref.id);
    WithReferenceAgrees(s', PutTx(s, u), w, t, u, ref, env, env');
  }

  lemma TakenByTerms(s: Store, t: TxRow, u: TxRow)
    requires !Taken(s, t) && t.id == u.id && SameTerms(t.terms, u.terms)
    ensures !Taken(s, u)
  {
  }

  /** With its own row inserted, an attempt sees what is there, and itself where nothing was. */
  lemma SeenBesideOwn(db: Store, t: TxRow, providerId: string, externalId: string)
    requires Indexed(db) && !Taken(db, t) && t.terms.providerId != ""
    ensures FindByOp(PutTx(db, t), providerId, externalId)
         == if (providerId, externalId) == OpOf(t.terms) then Some(t) else FindByOp(db, providerId, externalId)
    ensures FindByOp(db, t.terms.providerId, t.terms.externalId) == None
  {
  }

  /** The own row is not found under the reference's name. */
  lemma FoundBesideOwn(s: Store, u: TxRow)
    requires Closed(s) && !Taken(s, u) && OpOf(u.terms) != (u.terms.providerId, u.terms.referenceExternalId)
    ensures FindByOp(PutTx(s, u), u.terms.providerId, u.terms.referenceExternalId) == FindByOp(s, u.terms.providerId, u.terms.referenceExternalId)
  {
  }

  /** What an ending writes is the transaction's own row, with the status it answers. */
  ghost predicate WritesOwn(o: Outcome, t: TxRow) {
    o.Committed? ==> o.writes.tx.Some? && o.writes.tx.value.id == t.id && o.writes.tx.value.terms == t.terms
                     && o.writes.tx.value.status == o.out.status
  }

  lemma EndingsWriteOwn(t: TxRow, w: WalletRow, w': WalletRow, code: FailureCode, direction: Direction, env: Env)
    ensures WritesOwn(Reject(t, w, code, env), t) && WritesOwn(Park(t, w, env), t) && WritesOwn(Note(t, w, env), t)
    ensures WritesOwn(Settle(t, w, w', direction, env), t)
  {
    hide NewEntry;
  }

  lemma FinishWritesOwn(w: WalletRow, t: TxRow, ref: Option<TxRow>, env: Env)
    ensures WritesOwn(Finish(w, t, ref, env), t)
  {
    hide Moved, Reject, Note, Settle, WritesOwn;
    assert forall e :: WritesOwn(Refused(e), t) by { NothingWrites(t); }
    EndingsWriteOwn(t, w, w, ShortfallCode(t.terms.kind), Debit, env);
    var direction := DirectionOf(t.terms.kind, if ref.Some? then Some(ref.value.terms.kind) else None);
    if direction.Some? && Moved(w, direction.value, t.terms.money, env.now).Ok? {
      EndingsWriteOwn(t, w, Moved(w, direction.value, t.terms.money, env.now).value, NoCode, direction.value, env);
    }
  }

  lemma NothingWrites(t: TxRow)
    ensures forall e :: WritesOwn(Refused(e), t)
  {
  }

  lemma ResolvedWritesOwn(o: Outcome, t: TxRow, r: TxRow)
    requires WritesOwn(o, r) && r.id == t.id && r.terms == t.terms
    ensures WritesOwn(o, t)
  {
  }

  lemma InsertedWritesOwn(v: Store, w: WalletRow, t: TxRow, env: Env)
    ensures WritesOwn(AfterInsert(v, w, t, env), t)
  {
    hide Reject, Park, Finish, FindByOp, HasProcessedReversal, ValidateReference, WritesOwn;
    NothingWrites(t);
    EndingsWriteOwn(t, w, w, CurrencyMismatch, Debit, env);
    EndingsWriteOwn(t, w, w, ReferenceNotProcessable, Debit, env);
    EndingsWriteOwn(t, w, w, ReferenceAlreadyReversed, Debit, env);
    FinishWritesOwn(w, t, None, env);
    var found := FindByOp(v, t.terms.providerId, t.terms.referenceExternalId);
    if found.Some? {
      EndingsWriteOwn(t, w, w, ValidateReference(t.terms, found.value.terms), Debit, env);
      if ReferenceResolved(t, found.value.id, env.now).Ok? {
        var r := ReferenceResolved(t, found.value.id, env.now).value;
        FinishWritesOwn(w, r, found, env);
        ResolvedWritesOwn(Finish(w, r, found, env), t, r);
      }
    }
  }

  /** From a processed reference on the row no longer waits. */
  lemma WithReferenceEnds(s: Store, w: WalletRow, t: TxRow, ref: TxRow, env: Env)
    ensures var o := WithReference(s, w, t, ref, env);
      && (o.Committed? || o.Refused?)
      && (o.Committed? ==> o.writes.tx.Some? && o.writes.tx.value.id == t.id && o.writes.tx.value.status == o.out.status != PendingReference)
  {
    hide Reject, Finish, HasProcessedReversal, ValidateReference;
    var code := ValidateReference(t.terms, ref.terms);
    EndStatus(t, w, w, code, Debit, env);
    EndStatus(t, w, w, ReferenceAlreadyReversed, Debit, env);
    EndingsWriteOwn(t, w, w, code, Debit, env);
    EndingsWriteOwn(t, w, w, ReferenceAlreadyReversed, Debit, env);
    if ReferenceResolved(t, ref.id, env.now).Ok? {
      FinishStatus(w, ReferenceResolved(t, ref.id, env.now).value, Some(ref), env);
      FinishWritesOwn(w, ReferenceResolved(t, ref.id, env.now).value, Some(ref), env);
    }
  }

  /** The constructor looks at the wallet's identity only, and the clock is just recorded. */
  lemma SameRowLater(id: Id, i: Input, w: WalletRow, w': WalletRow, now: Time, now': Time)
    requires NewExternal(id, i, w, now).Ok? && w'.id == w.id && w'.playerId == w.playerId
    ensures NewExternal(id, i, w', now').Ok?
    ensures SameOpen(NewExternal(id, i, w, now).value, NewExternal(id, i, w', now').value)
  {
  }

  lemma GoodIsClosed(s: Store)
    requires Indexed(s)
    ensures Closed(s)
  {
  }

  // ---------------------------------------------------------------- no reference, no money

  /** A request that names a reference moves money only on a state in which that reference is processed, whichever way
      it comes. */
  lemma MoneyNeedsReference(s: Store, c: Call, env: Env)
    requires Indexed(s) && (c.CallAttempt? || c.CallResume?)
    requires Run(s, c, env).Committed? && Run(s, c, env).writes.wallet.Some? && Run(s, c, env).writes.tx.Some?
    requires Run(s, c, env).writes.tx.value.terms.referenceExternalId != ""
    ensures var t := Run(s, c, env).writes.tx.value.terms;
      FindByOp(s, t.providerId, t.referenceExternalId).Some? && FindByOp(s, t.providerId, t.referenceExternalId).value.status == Processed
  {
    hide NewExternal, AfterInsert, ResolveByKey, ResolveByOp, FindByOp, Indexed, WithReference, Wait, AfterWait;
    match c {
      case CallAttempt(i) =>
        AttemptInserts(s, i, env);
        var w := s.wallets[i.walletId];
        var t := NewExternal(env.txId, i, w, env.now).value;
        InsertedWritesOwn(PutTx(s, t), w, t, env);
        NewRowPlain(env.txId, i, w, env.now);
        InsertNeedsReference(s, w, t, env);
      case CallResume(id) =>
        ResumeNeedsReference(s, id, env);
    }
  }

  lemma NoWalletWritten(t: TxRow, w: WalletRow, code: FailureCode, env: Env)
    ensures Reject(t, w, code, env).Committed? ==> Reject(t, w, code, env).writes.wallet == None
    ensures Park(t, w, env).Committed? ==> Park(t, w, env).writes.wallet == None
    ensures Wait(t, env).Committed? ==> Wait(t, env).writes.wallet == None
  {
  }

  lemma InsertNeedsReference(s: Store, w: WalletRow, t: TxRow, env: Env)
    requires Indexed(s) && !Taken(s, t) && t.status == Pending && t.terms.referenceExternalId != ""
    requires AfterInsert(PutTx(s, t), w, t, env).Committed? && AfterInsert(PutTx(s, t), w, t, env).writes.wallet.Some?
    ensures var found := FindByOp(s, t.terms.providerId, t.terms.referenceExternalId); found.Some? && found.value.status == Processed
  {
    hide Reject, Park, WithReference, FindByOp, Taken, Indexed;
    NoWalletWritten(t, w, CurrencyMismatch, env);
    NoWalletWritten(t, w, ReferenceNotProcessable, env);
    var found := FindByOp(PutTx(s, t), t.terms.providerId, t.terms.referenceExternalId);
    if found.Some? && found.value.status == Processed {
      NotTakenId(s, t);
      FoundElsewhere(s, t, t.terms.providerId, t.terms.referenceExternalId);
    }
  }

  lemma ResumeNeedsReference(s: Store, id: Id, env: Env)
    requires Resume(s, id, env).Committed? && Resume(s, id, env).writes.wallet.Some?
    ensures id in s.txs
    ensures var found := FindByOp(s, s.txs[id].terms.providerId, s.txs[id].terms.referenceExternalId);
      found.Some? && found.value.status == Processed
    ensures Resume(s, id, env).writes.tx.Some? ==> Resume(s, id, env).writes.tx.value.terms == s.txs[id].terms
  {
    hide Wait, FindByOp, Reject, Finish, HasProcessedReversal, ValidateReference;
    var t, w := s.txs[id], s.wallets[s.txs[id].terms.walletId];
    NoWalletWritten(t, w, NoCode, env);
    var found := FindByOp(s, t.terms.providerId, t.terms.referenceExternalId);
    if found.Some? {
      EndingsWriteOwn(t, w, w, ValidateReference(t.terms, found.value.terms), Debit, env);
      EndingsWriteOwn(t, w, w, ReferenceAlreadyReversed, Debit, env);
      if ReferenceResolved(t, found.value.id, env.now).Ok? {
        FinishWritesOwn(w, ReferenceResolved(t, found.value.id, env.now).value, found, env);
      }
    }
  }
}
