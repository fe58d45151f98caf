/** When an ending that moves no money is what the same call, run alone, would have come to: exactly while the balance it
    answers or records, if any, is still the committed one and the reference has not changed in a way that matters to it. */
module Rejections {
  import opened Wrappers
  import opened Money
  import opened Wallet
  import opened WagerTx
  import opened Ledger
  import opened Store
  import opened Process
  import opened Invariants
  import opened Atomic
  import opened Machine
  import opened Sessions
  import opened Steps
  import opened Commits
  import opened Interleaving
  import LateReference

  // ---------------------------------------------------------------- the same call on the state of the commit

  /** The row in hand, on the wallet as it is now: same owner and currency, whatever the balance. */
  ghost predicate OnCurrentWallet(db: Store, s: Session, w: WalletRow, t: TxRow, u: WalletRow) {
    && u.id == w.id && u.playerId == w.playerId && u.balance.currency == w.balance.currency
    && w.id in db.wallets && db.wallets[w.id] == u
    && if IsAttempt(s.op) then
         var i := InputOf(s.op);
         && !Taken(db, t) && Supported(i.kind) && i.walletId == u.id && u.playerId == i.playerId && t.status == Pending
         && NewExternal(s.env.txId, i, u, s.env.now) == Ok(t) && t.terms.providerId != ""
       else
         && s.op.ResumeRow? && t.id == s.op.id && t.id in db.txs && db.txs[t.id] == t && t.status == PendingReference
         && t.terms.walletId == u.id && t.terms.providerId != ""
  }

  lemma SameRowOnWallet(id: Id, i: Input, w: WalletRow, u: WalletRow, now: Time)
    requires u.id == w.id && u.playerId == w.playerId
    ensures NewExternal(id, i, u, now) == NewExternal(id, i, w, now)
  {
  }

  lemma InHandOnCurrentWallet(log: seq<Store>, s: Session, w: WalletRow, rw: nat, t: TxRow)
    requires LogOk(log) && WalletSeen(log, s, w, rw) && RowInHand(s, w, t) && Guard(Db(log), s)
    ensures w.id in Db(log).wallets && OnCurrentWallet(Db(log), s, w, t, Db(log).wallets[w.id])
  {
    hide StoreInv, Extends, Guard, NewExternal, Taken;
    var db := Db(log);
    SeenWalletIsThere(log, s, w, rw);
    InHandIsOpen(s, w, t);
    InHandProvided(log, s, w, rw, t);
    if IsAttempt(s.op) {
      HeldKeysAreFree(db, s, t);
      SameRowOnWallet(s.env.txId, InputOf(s.op), w, db.wallets[w.id], s.env.now);
    } else {
      HeldRow(db, s, t.id);
    }
  }

  /** What the call comes to from the row on. */
  ghost function FromRow(db: Store, s: Session, t: TxRow, u: WalletRow): Outcome {
    if IsAttempt(s.op) then AfterInsert(PutTx(db, t), u, t, s.env) else AfterWait(db, u, t, s.env)
  }

  lemma CallFromRow(db: Store, s: Session, w: WalletRow, t: TxRow, u: WalletRow)
    requires OnCurrentWallet(db, s, w, t, u)
    ensures Run(db, CallOf(s.op), s.env) == FromRow(db, s, t, u)
  {
    hide NewExternal, Taken, AfterInsert, AfterWait, Attempt;
    if IsAttempt(s.op) {
      AttemptInsertsRow(db, InputOf(s.op), u, t, s.env);
    }
  }

  /** A reference found under its name, beside the own row. */
  lemma NamedReference(db: Store, s: Session, w: WalletRow, t: TxRow, u: WalletRow, ref: TxRow)
    requires Indexed(db) && OnCurrentWallet(db, s, w, t, u)
    requires ref.id in db.txs && db.txs[ref.id] == ref && OpOf(ref.terms) == (t.terms.providerId, t.terms.referenceExternalId)
    ensures var v := if IsAttempt(s.op) then PutTx(db, t) else db;
      FindByOp(v, t.terms.providerId, t.terms.referenceExternalId) == Some(ref)
      && HasProcessedReversal(v, ref.id) == HasProcessedReversal(db, ref.id)
  {
    hide NewExternal, HasProcessedReversal, FindByOp;
    ReferenceFound(db, t, ref);
    if IsAttempt(s.op) {
      NotTakenId(db, t);
      ReversalsElsewhere(db, t, ref.id);
    }
  }

  lemma CurrencyNow(db: Store, s: Session, w: WalletRow, t: TxRow, u: WalletRow)
    requires OnCurrentWallet(db, s, w, t, u) && IsAttempt(s.op) && u.balance.currency != t.terms.money.currency
    ensures FromRow(db, s, t, u) == Reject(t, u, CurrencyMismatch, s.env)
  {
    hide Reject, Finish, WithReference;
  }

  lemma ReferenceWrongNow(db: Store, s: Session, w: WalletRow, t: TxRow, u: WalletRow, ref: TxRow, code: FailureCode)
    requires Indexed(db) && OnCurrentWallet(db, s, w, t, u)
    requires ref.id in db.txs && db.txs[ref.id] == ref && OpOf(ref.terms) == (t.terms.providerId, t.terms.referenceExternalId)
    requires IsAttempt(s.op) ==> u.balance.currency == t.terms.money.currency && t.terms.referenceExternalId != ""
    requires if ref.status == Processed then code == ValidateReference(t.terms, ref.terms) != NoCode
             else code == ReferenceNotProcessable && IsTerminal(ref.status) && IsAttempt(s.op)
    ensures FromRow(db, s, t, u) == Reject(t, u, code, s.env)
  {
    hide Reject, Finish, HasProcessedReversal, ValidateReference, FindByOp, NewExternal, Taken, Indexed;
    NamedReference(db, s, w, t, u, ref);
  }

  lemma ReversedNow(db: Store, s: Session, w: WalletRow, t: TxRow, u: WalletRow, ref: TxRow)
    requires Indexed(db) && OnCurrentWallet(db, s, w, t, u)
    requires ref.id in db.txs && db.txs[ref.id] == ref && OpOf(ref.terms) == (t.terms.providerId, t.terms.referenceExternalId)
    requires IsAttempt(s.op) ==> u.balance.currency == t.terms.money.currency && t.terms.referenceExternalId != ""
    requires ref.status == Processed && ValidateReference(t.terms, ref.terms) == NoCode
    requires (t.terms.kind == Refund || t.terms.kind == Rollback) && HasProcessedReversal(db, ref.id)
    ensures FromRow(db, s, t, u) == Reject(t, u, ReferenceAlreadyReversed, s.env)
  {
    hide Reject, Finish, HasProcessedReversal, ValidateReference, FindByOp, NewExternal, Taken, Indexed;
    NamedReference(db, s, w, t, u, ref);
  }

  /** With the reference, if there is one, still usable, the call comes to the movement. */
  lemma MovementNow(db: Store, s: Session, w: WalletRow, t: TxRow, u: WalletRow, ref: Option<TxRow>)
    requires Indexed(db) && OnCurrentWallet(db, s, w, t, u) && u.balance.currency == t.terms.money.currency
    requires ref.None? ==> t.terms.referenceExternalId == "" && IsAttempt(s.op)
    requires ref.Some? ==>
      && t.terms.referenceExternalId != "" && ref.value.id != "" && ref.value.status == Processed
      && ref.value.id in db.txs && db.txs[ref.value.id] == ref.value
      && OpOf(ref.value.terms) == (t.terms.providerId, t.terms.referenceExternalId)
      && ValidateReference(t.terms, ref.value.terms) == NoCode
    requires ref.Some? && (t.terms.kind == Refund || t.terms.kind == Rollback) ==> !HasProcessedReversal(db, ref.value.id)
    ensures FromRow(db, s, t, u) == Finish(u, ResolvedRow(t, ref, s.env.now), ref, s.env)
  {
    hide Finish, HasProcessedReversal, ValidateReference, FindByOp, NewExternal, Taken, Indexed, ResolvedRow;
    if IsAttempt(s.op) {
      InsertedFinishes(db, u, t, ref, s.env);
    } else {
      ResumedFinishes(db, u, t, ref.value, s.env);
    }
  }

  // ---------------------------------------------------------------- comparing two rejections

  /** A rejection depends on the wallet only through its balance, and records it. */
  lemma RejectionsCompared(t: TxRow, r: TxRow, w: WalletRow, u: WalletRow, code: FailureCode, code': FailureCode, env: Env)
    requires VariantOf(r, t) && IsOpen(t.status) && code != NoCode && code' != NoCode
    ensures Reject(r, w, code, env).Committed? && Reject(t, u, code', env).Committed? && Reject(r, u, code', env).Committed?
    ensures Reject(r, w, code, env).out == Reject(t, u, code', env).out <==> code == code' && w.balance == u.balance
    ensures w.balance == u.balance ==> Reject(r, u, code, env) == Reject(r, w, code, env)
    ensures Reject(r, w, code, env).out == Reject(r, u, code, env).out <==> w.balance == u.balance
  {
  }

  lemma MovedByBalance(w: WalletRow, u: WalletRow, direction: Direction, amount: Money, now: Time)
    requires u.balance == w.balance && Moved(w, direction, amount, now).Err?
    ensures Moved(u, direction, amount, now) == Moved(w, direction, amount, now)
  {
  }

  /** A shortfall on the wallet as read, seen on the wallet as it is now. */
  lemma FinishCompared(r: TxRow, t: TxRow, w: WalletRow, u: WalletRow, ref: Option<TxRow>, direction: Direction, env: Env)
    requires VariantOf(r, t) && IsOpen(t.status) && DirectionOf(t.terms.kind, KindOf(ref)) == Some(direction)
    requires Moved(w, direction, t.terms.money, env.now) == Err(ErrInsufficientBalance)
    ensures w.balance == u.balance ==> Finish(u, r, ref, env) == Reject(r, w, ShortfallCode(t.terms.kind), env)
    ensures Finish(u, r, ref, env).Committed? && Finish(u, r, ref, env).out == Reject(r, w, ShortfallCode(t.terms.kind), env).out ==>
      w.balance == u.balance
  {
    hide Moved, Reject, Settle;
    var code := ShortfallCode(t.terms.kind);
    RejectionsCompared(t, r, w, u, code, code, env);
    if w.balance == u.balance {
      MovedByBalance(w, u, direction, t.terms.money, env.now);
    } else if Moved(u, direction, t.terms.money, env.now).Ok? {
      SettledIsNoRejection(r, u, w, Moved(u, direction, t.terms.money, env.now).value, code, direction, env);
    }
  }

  lemma SettledIsNoRejection(r: TxRow, u: WalletRow, w: WalletRow, u': WalletRow, code: FailureCode, direction: Direction, env: Env)
    ensures Settle(r, u, u', direction, env).Committed? && Reject(r, w, code, env).Committed? ==>
      Settle(r, u, u', direction, env).out != Reject(r, w, code, env).out
  {
    hide NewEntry;
  }

  lemma WritingIsActing(db: Store, s: Session, o: Outcome)
    requires s.phase.Decided? && Writing(s, o) && Run(db, CallOf(s.op), s.env) == o
    ensures ActsAlone(db, s, Apply(db, s.writes))
  {
    hide Run;
    WritingActsAlone(db, s);
  }

  lemma ActingAnswers(db: Store, s: Session, db': Store)
    requires ActsAlone(db, s, db')
    ensures Run(db, CallOf(s.op), s.env).Committed? && s.phase.out == Run(db, CallOf(s.op), s.env).out
  {
    hide Run;
  }

  // ---------------------------------------------------------------- the theorem

  /** The reference has been reversed by somebody else since the shortfall's transaction checked it. */
  ghost predicate ReversedMeanwhile(db: Store, t: TxRow, cause: Cause) {
    && cause.Shortfall? && cause.resolved.Some? && (t.terms.kind == Refund || t.terms.kind == Rollback)
    && HasProcessedReversal(db, cause.resolved.value.id)
  }

  /** Rejections on the currency or the reference: the call would be rejected for the same reason now. */
  lemma OtherCausesNow(log: seq<Store>, s: Session, w: WalletRow, rw: nat, t: TxRow, code: FailureCode, cause: Cause)
    requires LogOk(log) && Guard(Db(log), s) && DeclinedOk(log, s, w, rw, t, code, cause) && !cause.Shortfall?
    ensures w.id in Db(log).wallets && Run(Db(log), CallOf(s.op), s.env) == Reject(t, Db(log).wallets[w.id], code, s.env)
  {
    hide StoreInv, Extends, Guard, Reject, HasProcessedReversal, ValidateReference, Run, OnCurrentWallet, RowInHand,
         WalletSeen, FromRow, Indexed;
    var db := Db(log);
    LastGood(log);
    InHandOnCurrentWallet(log, s, w, rw, t);
    var u := db.wallets[w.id];
    SeenWalletIsThere(log, s, w, rw);
    CallFromRow(db, s, w, t, u);
    match cause {
      case OtherCurrency => CurrencyNow(db, s, w, t, u);
      case BadReference(ref, rr) =>
        UsableReferenceStays(log, t, ref, rr);
        ReferenceWrongNow(db, s, w, t, u, ref, code);
      case Reversed(ref, rr, rc) =>
        UsableReferenceStays(log, t, ref, rr);
        ReversedStill(log, rc, ref.id);
        ReversedNow(db, s, w, t, u, ref);
      case Shortfall(_, _) =>
    }
  }

  lemma ReversedStill(log: seq<Store>, rc: nat, referenceId: Id)
    requires LogOk(log) && rc < |log| && HasProcessedReversal(log[rc], referenceId)
    ensures HasProcessedReversal(Db(log), referenceId)
  {
    hide StoreInv, HasProcessedReversal, ReversalMovesWallet, RowsGrow, Within;
    assert Extends(log[rc], Db(log));
    ReversalStays(log[rc], Db(log), referenceId);
  }

  /** A shortfall: the call would find the reversal, if there is one by now, or come to the movement again. */
  lemma ShortfallNow(log: seq<Store>, s: Session, w: WalletRow, rw: nat, t: TxRow, ref: Option<TxRow>, rr: nat, rc: nat)
    requires LogOk(log) && Guard(Db(log), s) && Clear(log, s, w, rw, t, ref, rr, rc)
    ensures w.id in Db(log).wallets
    ensures var db, u := Db(log), Db(log).wallets[w.id];
      Run(db, CallOf(s.op), s.env) ==
        if ref.Some? && (t.terms.kind == Refund || t.terms.kind == Rollback) && HasProcessedReversal(db, ref.value.id)
        then Reject(t, u, ReferenceAlreadyReversed, s.env)
        else Finish(u, ResolvedRow(t, ref, s.env.now), ref, s.env)
  {
    hide StoreInv, Extends, Guard, Reject, HasProcessedReversal, ValidateReference, Run, OnCurrentWallet, RowInHand,
         WalletSeen, FromRow,
         Indexed, Finish, ResolvedRow;
    var db := Db(log);
    LastGood(log);
    InHandOnCurrentWallet(log, s, w, rw, t);
    var u := db.wallets[w.id];
    SeenWalletIsThere(log, s, w, rw);
    CallFromRow(db, s, w, t, u);
    if ref.Some? {
      UsableReferenceStays(log, t, ref.value, rr);
    } else {
      ResumeNeedsReference(s, w, t);
    }
    if ref.Some? && (t.terms.kind == Refund || t.terms.kind == Rollback) && HasProcessedReversal(db, ref.value.id) {
      ReversedNow(db, s, w, t, u, ref.value);
    } else {
      MovementNow(db, s, w, t, u, ref);
    }
  }

  lemma ResumeNeedsReference(s: Session, w: WalletRow, t: TxRow)
    requires RowInHand(s, w, t)
    ensures t.terms.referenceExternalId == "" ==> IsAttempt(s.op)
  {
    hide NewExternal;
  }

  /** What the decision's rejection is, compared with what the call comes to on the state of its commit. */
  lemma DeclinedCompared(log: seq<Store>, s: Session, w: WalletRow, rw: nat, t: TxRow, code: FailureCode, cause: Cause, rr: nat, rc: nat)
    requires LogOk(log) && Guard(Db(log), s) && DeclinedOk(log, s, w, rw, t, code, cause)
    requires ShortfallOk(log, s, w, t, cause, rw, rr, rc)
    ensures w.id in Db(log).wallets
    ensures var db, o, mine := Db(log), Run(Db(log), CallOf(s.op), s.env), Reject(RejectedAs(t, cause, s.env.now), w, code, s.env);
      var same := db.wallets[w.id].balance == w.balance && !ReversedMeanwhile(db, t, cause);
      (same ==> o == mine) && (o.Committed? && o.out == mine.out ==> same)
  {
    hide StoreInv, Extends, Guard, Reject, HasProcessedReversal, Run, RowInHand, WalletSeen, Finish, ResolvedRow, Moved, Clear;
    var db := Db(log);
    InHandIsOpen(s, w, t);
    RejectedVariant(t, cause, s.env.now);
    JustifiedCode(log, s, w, rw, t, code, cause);
    if cause.Shortfall? {
      var ref, r := cause.resolved, ResolvedRow(t, cause.resolved, s.env.now);
      ShortfallNow(log, s, w, rw, t, ref, rr, rc);
      var u := db.wallets[w.id];
      RejectionsCompared(t, r, w, u, code, ReferenceAlreadyReversed, s.env);
      FinishCompared(r, t, w, u, ref, cause.direction, s.env);
    } else {
      OtherCausesNow(log, s, w, rw, t, code, cause);
      RejectionsCompared(t, t, w, db.wallets[w.id], code, code, s.env);
    }
  }

  /** A rejection is serialisable at its commit if and only if the balance it was decided on and records is still the
      committed one and, for a shortfall, the reference has not been reversed meanwhile. */
  lemma RejectionsSerialisableExactlyWhen(m: Machine, sid: nat, m': Machine)
    requires Reachable(m) && Next(m, Commit(sid), m') && m.sessions[sid].phase.decision.Declined?
    ensures var s, db := m.sessions[sid], Db(m.log);
      var d := s.phase.decision;
      && d.w.id in db.wallets
      && (ActsAlone(db, s, Db(m'.log)) <==> db.wallets[d.w.id].balance == d.w.balance && !ReversedMeanwhile(db, d.t, d.cause))
  {
    hide Reachable, StoreInv, Extends, Running, Guard, HoldsIds, DeclinedOk, ShortfallOk, Run, Reject,
         ReversedMeanwhile, ActsAlone;
    var s, db := m.sessions[sid], Db(m.log);
    AboutToCommit(m, sid);
    match s.phase.decision {
      case Declined(w, readAt, t, code, cause) =>
        DeclinedCompared(m.log, s, w, readAt, t, code, cause, s.phase.rr, s.phase.rc);
        var mine := Reject(RejectedAs(t, cause, s.env.now), w, code, s.env);
        DeclinedWrites(m.log, s, w, readAt, t, code, cause);
        if Run(db, CallOf(s.op), s.env) == mine {
          WritingIsActing(db, s, mine);
        }
        if ActsAlone(db, s, Db(m'.log)) {
          ActingAnswers(db, s, Db(m'.log));
        }
    }
  }

  lemma DeclinedWrites(log: seq<Store>, s: Session, w: WalletRow, rw: nat, t: TxRow, code: FailureCode, cause: Cause)
    requires DeclinedOk(log, s, w, rw, t, code, cause)
    ensures Writing(s, Reject(RejectedAs(t, cause, s.env.now), w, code, s.env))
    ensures s.phase.Decided? && s.phase.out == Reject(RejectedAs(t, cause, s.env.now), w, code, s.env).out
  {
    hide Reject, Justified, RowInHand, WalletSeen;
  }

  // ---------------------------------------------------------------- parkings, waits and losses

  /** The reference is missing, or its row may still be processed. */
  ghost predicate ReferenceOpen(db: Store, t: TxRow) {
    var found := FindByOp(db, t.terms.providerId, t.terms.referenceExternalId);
    found.None? || !IsTerminal(found.value.status)
  }

  /** The reference is not there as a processed row: a worker goes on waiting for it, though it may have been rejected. */
  ghost predicate ReferenceUnprocessed(db: Store, t: TxRow) {
    var found := FindByOp(db, t.terms.providerId, t.terms.referenceExternalId);
    found.None? || found.value.status != Processed
  }

  /** Parking and noting look at the wallet only for the balance they answer, and a LOSS records; waiting not at all. */
  lemma EndingsCompared(t: TxRow, w: WalletRow, u: WalletRow, env: Env)
    ensures t.status == Pending ==>
      && Park(t, w, env).Committed? && Park(t, u, env).Committed? && Park(t, w, env).out.status == PendingReference
      && (Park(t, u, env) == Park(t, w, env) <==> u.balance == w.balance)
      && (Park(t, u, env).out == Park(t, w, env).out <==> u.balance == w.balance)
    ensures IsOpen(t.status) ==>
      && Note(t, w, env).Committed? && Note(t, u, env).Committed?
      && (Note(t, u, env) == Note(t, w, env) <==> u.balance == w.balance)
      && (Note(t, u, env).out == Note(t, w, env).out <==> u.balance == w.balance)
    ensures t.status == PendingReference ==>
      Wait(t, env).Committed? && Wait(t, env).out.status == PendingReference
  {
    hide ReferenceRetryBackoff;
  }

  /** An attempt whose row names a reference parks exactly while the reference is open. */
  lemma ParkNow(db: Store, s: Session, w: WalletRow, t: TxRow, u: WalletRow)
    requires Indexed(db) && OnCurrentWallet(db, s, w, t, u) && IsAttempt(s.op)
    requires u.balance.currency == t.terms.money.currency && t.terms.referenceExternalId != ""
    ensures ReferenceOpen(db, t) ==> FromRow(db, s, t, u) == Park(t, u, s.env)
    ensures !ReferenceOpen(db, t) && FromRow(db, s, t, u).Committed? ==> FromRow(db, s, t, u).out.status != PendingReference
  {
    hide Reject, Park, FindByOp, WithReference, NewExternal, Taken, Indexed;
    LateReference.SeenBesideOwn(db, t, t.terms.providerId, t.terms.referenceExternalId);
    LateReference.EndStatus(t, u, u, ReferenceNotProcessable, Debit, s.env);
    var found := FindByOp(db, t.terms.providerId, t.terms.referenceExternalId);
    if found.Some? {
      LateReference.WithReferenceEnds(PutTx(db, t), u, t, found.value, s.env);
    }
  }

  lemma AttemptFromRow(db: Store, s: Session, t: TxRow, u: WalletRow)
    requires IsAttempt(s.op)
    ensures FromRow(db, s, t, u) == AfterInsert(PutTx(db, t), u, t, s.env)
  {
  }

  /** A resume goes on waiting exactly while the reference is not processed. */
  lemma WaitNow(db: Store, s: Session, w: WalletRow, t: TxRow, u: WalletRow)
    requires OnCurrentWallet(db, s, w, t, u) && !IsAttempt(s.op)
    ensures ReferenceUnprocessed(db, t) ==> FromRow(db, s, t, u) == Wait(t, s.env)
    ensures !ReferenceUnprocessed(db, t) && FromRow(db, s, t, u).Committed? ==> FromRow(db, s, t, u).out.status != PendingReference
  {
    hide Wait, FindByOp, WithReference;
    var found := FindByOp(db, t.terms.providerId, t.terms.referenceExternalId);
    if found.Some? {
      LateReference.WithReferenceEnds(db, u, t, found.value, s.env);
    }
  }

  lemma NoteNow(db: Store, s: Session, w: WalletRow, t: TxRow, u: WalletRow)
    requires OnCurrentWallet(db, s, w, t, u) && IsAttempt(s.op) && u.balance.currency == t.terms.money.currency
    requires t.terms.kind == Loss && t.terms.referenceExternalId == ""
    ensures FromRow(db, s, t, u) == Note(t, u, s.env)
  {
    hide Note, NewExternal, Taken;
  }

  /** What the session writes, and what its call comes to on the wallet as it is now. */
  lemma ReadyToCompare(log: seq<Store>, s: Session, w: WalletRow, rw: nat, t: TxRow)
    requires LogOk(log) && Guard(Db(log), s) && WalletSeen(log, s, w, rw) && RowInHand(s, w, t)
    ensures Indexed(Db(log)) && w.id in Db(log).wallets
    ensures var u := Db(log).wallets[w.id];
      && OnCurrentWallet(Db(log), s, w, t, u) && u.balance.currency == w.balance.currency
      && Run(Db(log), CallOf(s.op), s.env) == FromRow(Db(log), s, t, u)
    ensures TermsOk(t.terms) && t.status == if IsAttempt(s.op) then Pending else PendingReference
  {
    hide StoreInv, Extends, Guard, RowInHand, WalletSeen, OnCurrentWallet, FromRow, Run, TermsOk, MayWrite, Indexed;
    LastGood(log);
    InHandOnCurrentWallet(log, s, w, rw, t);
    InHandIsWritable(log, s, w, rw, t);
    InHandIsOpen(s, w, t);
    SeenWalletIsThere(log, s, w, rw);
    CallFromRow(Db(log), s, w, t, Db(log).wallets[w.id]);
  }

  /** The commit acts alone exactly when the call, on the state of the commit, comes to the very outcome written. */
  lemma ActsAloneExactlyWhen(db: Store, s: Session, mine: Outcome)
    requires s.phase.Decided? && Writing(s, mine)
    requires var o := Run(db, CallOf(s.op), s.env); o.Committed? && o.out == mine.out ==> o == mine
    ensures ActsAlone(db, s, Apply(db, s.writes)) <==> Run(db, CallOf(s.op), s.env) == mine
  {
    hide Run;
    if Run(db, CallOf(s.op), s.env) == mine {
      WritingIsActing(db, s, mine);
    }
  }

  /** The commit leaves what the call, run alone on the state before it, would have left, whatever it answers. */
  ghost predicate LeavesAlone(db: Store, s: Session, db': Store) {
    var o := Run(db, CallOf(s.op), s.env);
    o.Committed? && db' == Apply(db, o.writes).(inbox := db'.inbox)
  }

  /** A parking and an outcome that does not leave the row waiting leave different states. */
  lemma ParkingShows(db: Store, s: Session, t: TxRow, w: WalletRow, o: Outcome)
    requires Writing(s, Park(t, w, s.env)) && t.status == Pending
    requires o.Committed? ==> LateReference.WritesOwn(o, t) && o.out.status != PendingReference
    ensures o.Committed? ==> Apply(db, s.writes) != Apply(db, o.writes).(inbox := Apply(db, s.writes).inbox)
  {
    if o.Committed? {
      assert Apply(db, s.writes).txs[t.id].status == PendingReference;
      assert Apply(db, o.writes).txs[t.id].status != PendingReference;
    }
  }

  lemma ParkingLeaves(db: Store, s: Session, w: WalletRow, t: TxRow, u: WalletRow)
    requires s.phase.Decided? && Writing(s, Park(t, w, s.env)) && t.status == Pending
    requires ReferenceOpen(db, t) ==> Run(db, CallOf(s.op), s.env) == Park(t, u, s.env)
    requires !ReferenceOpen(db, t) ==>
      var o := Run(db, CallOf(s.op), s.env); o.Committed? ==> LateReference.WritesOwn(o, t) && o.out.status != PendingReference
    ensures LeavesAlone(db, s, Apply(db, s.writes)) <==> ReferenceOpen(db, t)
  {
    hide Run, ReferenceOpen, LateReference.WritesOwn;
    if !ReferenceOpen(db, t) {
      ParkingShows(db, s, t, w, Run(db, CallOf(s.op), s.env));
    }
  }

  /** A parking leaves what its call would leave at the commit if and only if the reference is still missing or open: one
      that was processed meanwhile leaves the row to the workers. It also answers what the call would answer if and only
      if the balance it answers is still the committed one. */
  lemma ParkingsSerialisableExactlyWhen(m: Machine, sid: nat, m': Machine)
    requires Reachable(m) && Next(m, Commit(sid), m') && m.sessions[sid].phase.decision.Parked?
    ensures var s, db := m.sessions[sid], Db(m.log);
      var d := s.phase.decision;
      && d.w.id in db.wallets
      && (LeavesAlone(db, s, Db(m'.log)) <==> ReferenceOpen(db, d.t))
      && (ActsAlone(db, s, Db(m'.log)) <==> db.wallets[d.w.id].balance == d.w.balance && ReferenceOpen(db, d.t))
  {
    hide Reachable, StoreInv, Extends, Running, Guard, HoldsIds, Run, Park, WalletSeen, RowInHand, ReferenceOpen, ActsAlone, FromRow,
         OnCurrentWallet, Indexed, LeavesAlone, LateReference.WritesOwn, AfterInsert;
    var s, db := m.sessions[sid], Db(m.log);
    AboutToCommit(m, sid);
    match s.phase.decision {
      case Parked(w, t) =>
        ReadyToCompare(m.log, s, w, s.phase.rw, t);
        var u := db.wallets[w.id];
        ParkNow(db, s, w, t, u);
        LateReference.InsertedWritesOwn(PutTx(db, t), u, t, s.env);
        AttemptFromRow(db, s, t, u);
        ParkingLeaves(db, s, w, t, u);
        EndingsCompared(t, w, u, s.env);
        ActsAloneExactlyWhen(db, s, Park(t, w, s.env));
    }
  }

  /** A further wait is serialisable at its commit if and only if the reference is still not processed: it neither
      answers nor records a balance, so what others did to the wallet does not matter. */
  lemma WaitsSerialisableExactlyWhen(m: Machine, sid: nat, m': Machine)
    requires Reachable(m) && Next(m, Commit(sid), m') && m.sessions[sid].phase.decision.Waited?
    ensures var s, db := m.sessions[sid], Db(m.log);
      ActsAlone(db, s, Db(m'.log)) <==> ReferenceUnprocessed(db, s.phase.decision.t)
  {
    hide Reachable, StoreInv, Extends, Running, Guard, HoldsIds, Run, Wait, WalletSeen, RowInHand, ReferenceUnprocessed, ActsAlone,
         FromRow, OnCurrentWallet, Indexed;
    var s, db := m.sessions[sid], Db(m.log);
    AboutToCommit(m, sid);
    match s.phase.decision {
      case Waited(w, t) =>
        ReadyToCompare(m.log, s, w, s.phase.rw, t);
        var u := db.wallets[w.id];
        WaitNow(db, s, w, t, u);
        EndingsCompared(t, w, u, s.env);
        ActsAloneExactlyWhen(db, s, Wait(t, s.env));
    }
  }

  /** A LOSS is serialisable at its commit if and only if the balance it records is still the committed one. */
  lemma LossesSerialisableExactlyWhen(m: Machine, sid: nat, m': Machine)
    requires Reachable(m) && Next(m, Commit(sid), m') && m.sessions[sid].phase.decision.Noted?
    ensures var s, db := m.sessions[sid], Db(m.log);
      var d := s.phase.decision;
      && d.w.id in db.wallets
      && (ActsAlone(db, s, Db(m'.log)) <==> db.wallets[d.w.id].balance == d.w.balance)
  {
    hide Reachable, StoreInv, Extends, Running, Guard, HoldsIds, Run, Note, WalletSeen, RowInHand, ActsAlone, FromRow,
         OnCurrentWallet, Indexed;
    var s, db := m.sessions[sid], Db(m.log);
    AboutToCommit(m, sid);
    match s.phase.decision {
      case Noted(w, t) =>
        ReadyToCompare(m.log, s, w, s.phase.rw, t);
        LossIsAttempted(s, w, t);
        var u := db.wallets[w.id];
        NoteNow(db, s, w, t, u);
        EndingsCompared(t, w, u, s.env);
        ActsAloneExactlyWhen(db, s, Note(t, w, s.env));
    }
  }

  /** Waiting rows name a reference, and losses name none. */
  lemma LossIsAttempted(s: Session, w: WalletRow, t: TxRow)
    requires RowInHand(s, w, t) && TermsOk(t.terms) && t.terms.kind == Loss
    ensures IsAttempt(s.op) && t.terms.referenceExternalId == ""
  {
    hide NewExternal;
  }
}
