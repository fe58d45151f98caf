/** What a session knows when it commits: its commit is legal on the state it meets, and a movement is the
    one that state would have led to on its own. */
module Commits {
  import opened Wrappers
  import opened Money
  import opened Wallet
  import opened WagerTx
  import opened Ledger
  import opened Store
  import opened Process
  import opened Invariants
  import opened Endings
  import opened Atomic
  import opened Machine
  import opened Sessions
  import opened Steps
  import Preservation

  // ---------------------------------------------------------------- what locks and growth say about now

  lemma IdsAreFresh(db: Store, s: Session)
    requires Guard(db, s) && HoldsIds(s)
    ensures Fresh(db, s.env)
  {
    assert forall l | l in IdLocks(s.env) :: Content(db, l) == Nothing;
    assert IdLock(s.env.txId) in IdLocks(s.env) && IdLock(s.env.walletId) in IdLocks(s.env);
    assert IdLock(s.env.event1) in IdLocks(s.env) && IdLock(s.env.event2) in IdLocks(s.env);
  }

  lemma HeldWalletIsCommitted(db: Store, s: Session, w: WalletRow)
    requires Guard(db, s) && HoldsWallet(s, w)
    ensures w.id in db.wallets && db.wallets[w.id] == w
  {
    assert Content(db, WalletLock(w.id)) == Purse(w);
  }

  lemma HeldKeysAreFree(db: Store, s: Session, t: TxRow)
    requires Guard(db, s) && HoldsKeys(s, t)
    ensures !Taken(db, t)
  {
    assert Content(db, RowLock(t.id)) == Nothing;
    assert Content(db, KeyLock(t.terms.idempotencyKey)) == Nothing;
    assert Content(db, OpLock(OpOf(t.terms))) == Nothing;
  }

  lemma SeenWalletIsThere(log: seq<Store>, s: Session, w: WalletRow, rw: nat)
    requires LogOk(log) && WalletSeen(log, s, w, rw)
    ensures w.id in Db(log).wallets && WalletGrows(w, Db(log).wallets[w.id]) && WalletOk(w)
  {
    hide StoreInv;
    assert Extends(log[rw], Db(log));
    WalletsFine(log[rw], w.id) by { assert StoreInv(log[rw]); GoodFacts(log[rw]); }
  }

  lemma WalletsFine(s: Store, id: Id)
    requires Rows(s) && id in s.wallets
    ensures WalletOk(s.wallets[id])
  {
  }

  /** The row in hand may still be written, whatever was committed since it was read or inserted. */
  lemma InHandIsWritable(log: seq<Store>, s: Session, w: WalletRow, rw: nat, t: TxRow)
    requires LogOk(log) && WalletSeen(log, s, w, rw) && RowInHand(s, w, t) && Guard(Db(log), s)
    ensures Writable(Db(log), t) && (w.balance.currency == t.terms.money.currency ==> OnWallet(Db(log), t))
  {
    hide StoreInv, Guard, LogOk;
    var db := Db(log);
    SeenWalletIsThere(log, s, w, rw);
    GoodFacts(db) by { assert StoreInv(db) by { LastGood(log); } }
    assert WalletOk(db.wallets[w.id]);
    if IsAttempt(s.op) {
      HeldKeysAreFree(db, s, t);
    } else {
      HeldRow(db, s, t.id);
      WaitingIsWritable(db, t.id);
    }
  }

  lemma LastGood(log: seq<Store>)
    requires LogOk(log)
    ensures StoreInv(Db(log)) && Indexed(Db(log)) && Rows(Db(log))
  {
  }

  lemma VariantWritable(db: Store, t: TxRow, t': TxRow)
    requires Writable(db, t) && VariantOf(t', t)
    ensures Writable(db, t') && (OnWallet(db, t) ==> OnWallet(db, t'))
  {
  }

  lemma UsableReferenceStays(log: seq<Store>, t: TxRow, ref: TxRow, rr: nat)
    requires LogOk(log) && ReferenceSeen(log, t, ref, rr) && IsTerminal(ref.status)
    ensures ref.id in Db(log).txs && Db(log).txs[ref.id] == ref && ref.id != ""
  {
    hide StoreInv, ReversalMovesWallet;
    assert Extends(log[rr], Db(log));
    assert TxGrows(log[rr].txs[ref.id], Db(log).txs[ref.id]);
    LastGood(log);
  }

  /** A reversal of `ref` that is there now and was not there then has moved the reference's wallet on. */
  lemma NewReversalMoved(before: Store, after: Store, id: Id, ref: TxRow)
    requires Extends(before, after) && id in after.txs && Reverses(after.txs[id], ref.id) && !HasProcessedReversal(before, ref.id)
    requires RowOk(after, after.txs[id]) && ReferenceOk(after, after.txs[id]) && ref.id in after.txs && after.txs[ref.id] == ref
    ensures Advanced(before, after, ref.terms.walletId)
  {
    hide RowsGrow, Within;
    if id in before.txs && IsReversal(before.txs[id]) {
      WasReversed(before, after, id, ref.id) by { assert RowsGrow(before, after); }
    }
    assert NewReversal(before, after, id);
  }

  lemma WasReversed(before: Store, after: Store, id: Id, referenceId: Id)
    requires RowsGrow(before, after) && id in before.txs && IsReversal(before.txs[id])
    requires id in after.txs && Reverses(after.txs[id], referenceId)
    ensures HasProcessedReversal(before, referenceId)
  {
    TerminalStays(before, after, id);
    assert Reverses(before.txs[id], referenceId);
  }

  lemma TerminalStays(before: Store, after: Store, id: Id)
    requires RowsGrow(before, after) && id in before.txs && IsTerminal(before.txs[id].status)
    ensures id in after.txs && after.txs[id] == before.txs[id]
  {
    assert TxGrows(before.txs[id], after.txs[id]);
  }

  /** The heart of the one-reversal rule: had a reversal of `ref` been processed after the check, it would have
      moved the wallet on, and the version taken by the save would not be the one read before the check. */
  lemma NoReversalSince(log: seq<Store>, w: WalletRow, rw: nat, rc: nat, ref: TxRow)
    requires LogOk(log) && rw <= rc < |log|
    requires w.id in log[rw].wallets && log[rw].wallets[w.id] == w
    requires w.id in Db(log).wallets && Db(log).wallets[w.id] == w
    requires ref.id in Db(log).txs && Db(log).txs[ref.id] == ref && ref.terms.walletId == w.id
    requires !HasProcessedReversal(log[rc], ref.id)
    ensures !HasProcessedReversal(Db(log), ref.id)
  {
    hide StoreInv, RowOk, ReferenceOk, Within, ReversalMovesWallet, Indexed, IsReversal;
    var db := Db(log);
    if HasProcessedReversal(db, ref.id) {
      var id :| id in db.txs && Reverses(db.txs[id], ref.id);
      LastGood(log);
      assert RowOk(db, db.txs[id]) && ReferenceOk(db, db.txs[id]);
      NewReversalMoved(log[rc], db, id, ref);
      UnmovedBetween(log, w, rw, rc);
    }
  }

  lemma UnmovedBetween(log: seq<Store>, w: WalletRow, rw: nat, rc: nat)
    requires LogOk(log) && rw <= rc < |log|
    requires w.id in log[rw].wallets && log[rw].wallets[w.id] == w
    requires w.id in Db(log).wallets && Db(log).wallets[w.id] == w
    ensures !Advanced(log[rc], Db(log), w.id)
  {
    hide StoreInv, Within, ReversalMovesWallet, Indexed;
    assert RowsGrow(log[rw], log[rc]) by { assert Extends(log[rw], log[rc]); }
    assert WalletGrows(log[rw].wallets[w.id], log[rc].wallets[w.id]);
  }

  // ---------------------------------------------------------------- settlements

  lemma ReferenceReadyNow(log: seq<Store>, s: Session, w: WalletRow, rw: nat, t: TxRow, ref: Option<TxRow>, rr: nat, rc: nat)
    requires LogOk(log) && Clear(log, s, w, rw, t, ref, rr, rc) && Guard(Db(log), s) && HoldsWallet(s, w)
    ensures ref.Some? ==> ref.value.id in Db(log).txs && Db(log).txs[ref.value.id] == ref.value && ref.value.id != ""
    ensures ref.Some? && (t.terms.kind == Refund || t.terms.kind == Rollback) ==> !HasProcessedReversal(Db(log), ref.value.id)
  {
    hide StoreInv, LogOk, Guard, RowInHand, HasProcessedReversal;
    HeldWalletIsCommitted(Db(log), s, w);
    if ref.Some? {
      UsableReferenceStays(log, t, ref.value, rr);
      InHandWallet(s, w, t);
      if t.terms.kind == Refund || t.terms.kind == Rollback {
        NoReversalSince(log, w, rw, rc, ref.value);
      }
    }
  }

  lemma InHandWallet(s: Session, w: WalletRow, t: TxRow)
    requires RowInHand(s, w, t)
    ensures w.id == t.terms.walletId && TermsNeedReference(t)
  {
  }

  ghost predicate TermsNeedReference(t: TxRow) {
    t.terms.referenceExternalId == "" ==> t.terms.kind != Refund && t.terms.kind != Rollback
  }

  /** Everything the sequential settlement asks for holds on the state the settlement meets. */
  lemma SettlementReady(log: seq<Store>, s: Session, w: WalletRow, rw: nat, t: TxRow, ref: Option<TxRow>, rr: nat, rc: nat,
                        direction: Direction)
    requires LogOk(log) && Clear(log, s, w, rw, t, ref, rr, rc) && Guard(Db(log), s) && HoldsWallet(s, w)
    requires DirectionOf(t.terms.kind, KindOf(ref)) == Some(direction)
    ensures var db, r := Db(log), ResolvedRow(t, ref, s.env.now);
      && w.id in db.wallets && db.wallets[w.id] == w
      && Writable(db, r) && OnWallet(db, r) && ReferenceReady(db, r) && DirectionOfRow(db, r) == Some(direction)
      && r.terms == t.terms
  {
    hide StoreInv, LogOk, Guard, HoldsWallet, WalletSeen, RowInHand, HasProcessedReversal, RowOk;
    var db, r := Db(log), ResolvedRow(t, ref, s.env.now);
    HeldWalletIsCommitted(db, s, w);
    ReferenceReadyNow(log, s, w, rw, t, ref, rr, rc);
    InHandIsWritable(log, s, w, rw, t);
    ResolvedVariant(t, ref, s.env.now);
    VariantWritable(db, t, r);
    InHandWallet(s, w, t);
    InHandIsOpen(s, w, t);
  }

  /** The call a session makes, when it is one the sequential model has. */
  function CallOf(op: Op): Call {
    match op
    case HttpCall(i) => CallAttempt(i)
    case SqsMessage(_, i) => CallAttempt(i)
    case ResumeRow(id) => CallResume(id)
    case ExpireRow(id) => CallExpire(id)
    case OpenAccount(p, b) => CallOpen(p, b)
  }

  /** Attempts and resumes that settle are what the same call, run alone on the committed state, would do. */
  lemma SettledIsAtomic(log: seq<Store>, s: Session, w: WalletRow, rw: nat, t: TxRow, ref: Option<TxRow>, rr: nat, rc: nat,
                        w': WalletRow, direction: Direction)
    requires LogOk(log) && SettledOk(log, s, w, rw, t, ref, rr, rc, w', direction) && Guard(Db(log), s)
    ensures var o := Run(Db(log), CallOf(s.op), s.env);
      o.Committed? && s.writes == o.writes.(inbox := s.writes.inbox)
      && o == Settle(ResolvedRow(t, ref, s.env.now), w, w', direction, s.env)
  {
    hide StoreInv, LogOk, Guard, HoldsWallet, HasProcessedReversal, Settle, Moved, ValidateReference, NewExternal,
         Writable, OnWallet, ReferenceReady;
    var db := Db(log);
    SettlementReady(log, s, w, rw, t, ref, rr, rc, direction);
    ReferenceReadyNow(log, s, w, rw, t, ref, rr, rc);
    if IsAttempt(s.op) {
      AttemptReaches(log, s, w, rw, t, ref, rr, rc);
    } else {
      ResumeReaches(log, s, w, rw, t, ref, rr, rc);
    }
    FinishSettles(w, ResolvedRow(t, ref, s.env.now), t, ref, direction, s.env);
  }

  lemma FinishSettles(w: WalletRow, r: TxRow, t: TxRow, ref: Option<TxRow>, direction: Direction, env: Env)
    requires r.terms == t.terms && DirectionOf(t.terms.kind, KindOf(ref)) == Some(direction)
    requires Moved(w, direction, t.terms.money, env.now).Ok?
    ensures Finish(w, r, ref, env) == Settle(r, w, Moved(w, direction, t.terms.money, env.now).value, direction, env)
  {
    hide Settle, Moved;
  }

  /** The reference is found under its name, in the state itself and in the view with the own row. */
  lemma ReferenceFound(db: Store, t: TxRow, ref: TxRow)
    requires Indexed(db) && t.terms.providerId != ""
    requires ref.id in db.txs && db.txs[ref.id] == ref && OpOf(ref.terms) == (t.terms.providerId, t.terms.referenceExternalId)
    ensures FindByOp(db, t.terms.providerId, t.terms.referenceExternalId) == Some(ref)
    ensures !Taken(db, t) ==> FindByOp(PutTx(db, t), t.terms.providerId, t.terms.referenceExternalId) == Some(ref)
  {
  }

  lemma AttemptReaches(log: seq<Store>, s: Session, w: WalletRow, rw: nat, t: TxRow, ref: Option<TxRow>, rr: nat, rc: nat)
    requires LogOk(log) && Clear(log, s, w, rw, t, ref, rr, rc) && Guard(Db(log), s) && IsAttempt(s.op)
    requires w.id in Db(log).wallets && Db(log).wallets[w.id] == w
    requires ref.Some? ==> ref.value.id in Db(log).txs && Db(log).txs[ref.value.id] == ref.value && ref.value.id != ""
    requires ref.Some? && (t.terms.kind == Refund || t.terms.kind == Rollback) ==> !HasProcessedReversal(Db(log), ref.value.id)
    ensures Attempt(Db(log), InputOf(s.op), s.env) == Finish(w, ResolvedRow(t, ref, s.env.now), ref, s.env)
  {
    hide StoreInv, LogOk, Guard, HasProcessedReversal, Finish, ValidateReference, NewExternal, WalletSeen, AfterInsert, Attempt,
         FindByOp, Taken, ResolvedRow, Indexed;
    var db, i := Db(log), InputOf(s.op);
    InHandIsOpen(s, w, t);
    HeldKeysAreFree(db, s, t);
    LastGood(log);
    AttemptInsertsRow(db, i, w, t, s.env);
    NewRowNames(s.env.txId, i, w, s.env.now);
    InsertedFinishes(db, w, t, ref, s.env);
  }

  lemma AttemptInsertsRow(db: Store, i: Input, w: WalletRow, t: TxRow, env: Env)
    requires !Taken(db, t) && Supported(i.kind) && NewExternal(env.txId, i, w, env.now) == Ok(t)
    requires i.walletId in db.wallets && db.wallets[i.walletId] == w && w.playerId == i.playerId
    ensures Attempt(db, i, env) == AfterInsert(PutTx(db, t), w, t, env)
  {
    hide NewExternal, AfterInsert, ResolveByKey, ResolveByOp;
    NewRowNames(env.txId, i, w, env.now);
    NothingToReplay(db, i, t);
  }

  /** From the insert on: the reference, if there is one, is the processed, valid and unreversed row that was read. */
  lemma InsertedFinishes(db: Store, w: WalletRow, t: TxRow, ref: Option<TxRow>, env: Env)
    requires Indexed(db) && !Taken(db, t) && t.status == Pending && t.terms.providerId != ""
    requires w.balance.currency == t.terms.money.currency
    requires ref.None? ==> t.terms.referenceExternalId == ""
    requires ref.Some? ==>
      && t.terms.referenceExternalId != "" && ref.value.id != "" && ref.value.status == Processed
      && ref.value.id in db.txs && db.txs[ref.value.id] == ref.value
      && OpOf(ref.value.terms) == (t.terms.providerId, t.terms.referenceExternalId)
      && ValidateReference(t.terms, ref.value.terms) == NoCode
    requires ref.Some? && (t.terms.kind == Refund || t.terms.kind == Rollback) ==> !HasProcessedReversal(db, ref.value.id)
    ensures AfterInsert(PutTx(db, t), w, t, env) == Finish(w, ResolvedRow(t, ref, env.now), ref, env)
  {
    hide HasProcessedReversal, Finish, ValidateReference, FindByOp, Taken, Indexed;
    if ref.Some? {
      ReferenceFound(db, t, ref.value);
      NotTakenId(db, t);
      ReversalsElsewhere(db, t, ref.value.id);
    }
  }

  lemma NotTakenId(db: Store, t: TxRow)
    requires !Taken(db, t)
    ensures t.id !in db.txs
  {
  }

  lemma NewRowNames(id: Id, i: Input, w: WalletRow, now: Time)
    requires NewExternal(id, i, w, now).Ok?
    ensures var t := NewExternal(id, i, w, now).value;
      && t.terms.idempotencyKey == i.idempotencyKey != "" && t.terms.providerId == i.providerId != ""
      && t.terms.externalId == i.externalId && t.terms.payloadHash == Some(CanonicalOf(i)) && t.terms.kind == i.kind
  {
  }

  lemma NothingToReplay(db: Store, i: Input, t: TxRow)
    requires !Taken(db, t) && t.terms.idempotencyKey == i.idempotencyKey != ""
    requires t.terms.providerId == i.providerId != "" && t.terms.externalId == i.externalId
    ensures ResolveByKey(db, i) == None && ResolveByOp(db, i) == None
  {
  }

  lemma ResumeReaches(log: seq<Store>, s: Session, w: WalletRow, rw: nat, t: TxRow, ref: Option<TxRow>, rr: nat, rc: nat)
    requires LogOk(log) && Clear(log, s, w, rw, t, ref, rr, rc) && Guard(Db(log), s) && !IsAttempt(s.op)
    requires w.id in Db(log).wallets && Db(log).wallets[w.id] == w
    requires ref.Some? ==> ref.value.id in Db(log).txs && Db(log).txs[ref.value.id] == ref.value && ref.value.id != ""
    requires ref.Some? && (t.terms.kind == Refund || t.terms.kind == Rollback) ==> !HasProcessedReversal(Db(log), ref.value.id)
    ensures s.op.ResumeRow? && Resume(Db(log), s.op.id, s.env) == Finish(w, ResolvedRow(t, ref, s.env.now), ref, s.env)
  {
    hide StoreInv, LogOk, Guard, HasProcessedReversal, Finish, ValidateReference, WalletSeen, Resume, Indexed, Rows, ResolvedRow;
    var db := Db(log);
    InHandIsOpen(s, w, t);
    HeldRow(db, s, t.id);
    LastGood(log);
    WaitingIsProvided(db, t);
    ResumedFinishes(db, w, t, ref.value, s.env);
  }

  lemma WaitingIsProvided(db: Store, t: TxRow)
    requires Rows(db) && t.id in db.txs && db.txs[t.id] == t && t.status == PendingReference
    ensures t.terms.providerId != ""
  {
    assert RowOk(db, t);
  }

  lemma ResumedFinishes(db: Store, w: WalletRow, t: TxRow, ref: TxRow, env: Env)
    requires Indexed(db) && t.id in db.txs && db.txs[t.id] == t && t.status == PendingReference && t.terms.providerId != ""
    requires t.terms.walletId in db.wallets && db.wallets[t.terms.walletId] == w
    requires ref.id != "" && ref.status == Processed && ref.id in db.txs && db.txs[ref.id] == ref
    requires OpOf(ref.terms) == (t.terms.providerId, t.terms.referenceExternalId) && ValidateReference(t.terms, ref.terms) == NoCode
    requires t.terms.kind == Refund || t.terms.kind == Rollback ==> !HasProcessedReversal(db, ref.id)
    ensures Resume(db, t.id, env) == Finish(w, ResolvedRow(t, Some(ref), env.now), Some(ref), env)
  {
    hide HasProcessedReversal, Finish, ValidateReference, FindByOp, Indexed;
    ReferenceFound(db, t, ref);
  }

  // ---------------------------------------------------------------- every commit is legal

  /** The commit writes this row, legally, and moves money at most for it. */
  ghost predicate Lands(db: Store, s: Session, t: TxRow) {
    && (RowCommit(db, s.writes) || MoveCommit(db, s.writes))
    && s.writes.tx.value.id == t.id && s.writes.tx.value.terms == t.terms
  }

  lemma RowCommitWithInbox(db: Store, o: Outcome, s: Session)
    requires Writing(s, o) && RowCommit(db, o.writes)
    ensures RowCommit(db, s.writes)
  {
    hide MayWrite, RowOk, NewEvents;
  }

  lemma MoveCommitWithInbox(db: Store, o: Outcome, s: Session)
    requires Writing(s, o) && MoveCommit(db, o.writes)
    ensures MoveCommit(db, s.writes)
  {
    hide MayWrite, RowOk, ReferenceOk, NewEvents, DirectionOfRow, Announces, HasProcessedReversal;
  }

  lemma OpenCommitWithInbox(db: Store, o: Outcome, s: Session)
    requires Writing(s, o) && OpenCommit(db, o.writes)
    ensures OpenCommit(db, s.writes)
  {
    hide TermsOk, NewEvents, Announces, WalletOk;
  }

  lemma DeclinedLands(log: seq<Store>, s: Session, w: WalletRow, rw: nat, t: TxRow, code: FailureCode, cause: Cause)
    requires LogOk(log) && Guard(Db(log), s) && HoldsIds(s) && DeclinedOk(log, s, w, rw, t, code, cause)
    ensures Lands(Db(log), s, t)
  {
    hide StoreInv, Extends, Guard, HoldsIds, RowInHand, WalletSeen, RowCommit, MoveCommit, Writable, OnWallet, Justified;
    var t' := RejectedAs(t, cause, s.env.now);
    RejectedVariant(t, cause, s.env.now);
    InHandIsWritable(log, s, w, rw, t);
    VariantWritable(Db(log), t, t');
    IdsAreFresh(Db(log), s);
    JustifiedCode(log, s, w, rw, t, code, cause);
    RejectLegal(Db(log), t', w, code, s.env);
    RowCommitWithInbox(Db(log), Reject(t', w, code, s.env), s);
  }

  lemma JustifiedCode(log: seq<Store>, s: Session, w: WalletRow, rw: nat, t: TxRow, code: FailureCode, cause: Cause)
    requires Justified(log, s, w, rw, t, code, cause)
    ensures code != NoCode
  {
    hide ReferenceSeen, ReferenceUsable, HasProcessedReversal, Moved;
  }

  lemma ParkedLands(log: seq<Store>, s: Session, w: WalletRow, rw: nat, t: TxRow)
    requires LogOk(log) && Guard(Db(log), s) && HoldsIds(s) && ParkedOk(log, s, w, rw, t)
    ensures Lands(Db(log), s, t)
  {
    hide StoreInv, Extends, Guard, HoldsIds, RowInHand, WalletSeen, RowCommit, MoveCommit, Writable, OnWallet;
    InHandIsWritable(log, s, w, rw, t);
    InHandIsOpen(s, w, t);
    IdsAreFresh(Db(log), s);
    ParkLegal(Db(log), t, w, s.env);
    RowCommitWithInbox(Db(log), Park(t, w, s.env), s);
  }

  lemma NotedLands(log: seq<Store>, s: Session, w: WalletRow, rw: nat, t: TxRow)
    requires LogOk(log) && Guard(Db(log), s) && HoldsIds(s) && NotedOk(log, s, w, rw, t)
    ensures Lands(Db(log), s, t)
  {
    hide StoreInv, Extends, Guard, HoldsIds, RowInHand, WalletSeen, RowCommit, MoveCommit, Writable, OnWallet;
    var t' :| NotedAs(s, w, t, t');
    InHandIsWritable(log, s, w, rw, t);
    VariantWritable(Db(log), t, t');
    IdsAreFresh(Db(log), s);
    NoteLegal(Db(log), t', w, s.env);
    RowCommitWithInbox(Db(log), Note(t', w, s.env), s);
  }

  lemma WaitedLands(log: seq<Store>, s: Session, w: WalletRow, rw: nat, t: TxRow)
    requires LogOk(log) && Guard(Db(log), s) && WaitedOk(log, s, w, rw, t)
    ensures Lands(Db(log), s, t)
  {
    hide StoreInv, Extends, Guard, RowInHand, WalletSeen, RowCommit, MoveCommit, Writable, OnWallet;
    InHandIsOpen(s, w, t);
    ResumeInHand(s, w, t);
    InHandIsWritable(log, s, w, rw, t);
    WaitLegal(Db(log), t, w, s.env);
    RowCommitWithInbox(Db(log), Wait(t, s.env), s);
  }

  lemma SettledLands(log: seq<Store>, s: Session, w: WalletRow, rw: nat, t: TxRow, ref: Option<TxRow>, rr: nat, rc: nat,
                     w': WalletRow, direction: Direction)
    requires LogOk(log) && Guard(Db(log), s) && HoldsIds(s) && SettledOk(log, s, w, rw, t, ref, rr, rc, w', direction)
    ensures Lands(Db(log), s, t) && MoveCommit(Db(log), s.writes)
  {
    hide StoreInv, Extends, Guard, HoldsIds, HoldsWallet, Clear, RowCommit, MoveCommit, Writable, OnWallet,
         ReferenceReady, Moved, ResolvedRow;
    var db, r := Db(log), ResolvedRow(t, ref, s.env.now);
    SettlementReady(log, s, w, rw, t, ref, rr, rc, direction);
    ResolvedVariant(t, ref, s.env.now);
    ClearFacts(log, s, w, rw, t, ref, rr, rc);
    InHandWallet(s, w, t);
    IdsAreFresh(db, s);
    SettleLegal(db, r, direction, s.env);
    MoveCommitWithInbox(db, Settle(r, w, w', direction, s.env), s);
  }

  /** An expiry depends on nothing but its row, which is locked. */
  lemma ExpiredLands(log: seq<Store>, s: Session, t: TxRow, at: nat)
    requires LogOk(log) && Guard(Db(log), s) && HoldsIds(s) && ExpiredOk(log, s, t, at)
    ensures Lands(Db(log), s, t) && Writing(s, Process.Expire(Db(log), t.id, s.env))
  {
    hide StoreInv, Extends, Guard, HoldsIds, RowCommit, MoveCommit, Writable, OnWallet;
    var db := Db(log);
    HeldRow(db, s, t.id);
    LastGood(log);
    WaitingIsWritable(db, t.id);
    IdsAreFresh(db, s);
    ExpireLegal(db, t.id, s.env);
    ExpireElsewhere(log[at], db, t.id, s.env);
    RowCommitWithInbox(db, Process.Expire(db, t.id, s.env), s);
  }

  lemma ExpireElsewhere(a: Store, b: Store, id: Id, env: Env)
    requires id in a.txs && id in b.txs && a.txs[id] == b.txs[id]
    ensures Process.Expire(a, id, env) == Process.Expire(b, id, env)
    ensures var o := Process.Expire(a, id, env);
      o.Committed? ==> o.writes.tx.Some? && o.writes.tx.value.id == a.txs[id].id && o.writes.tx.value.terms == a.txs[id].terms
  {
  }

  /** An opening depends on nothing but its wallet id and owner key being free, and both are held. */
  lemma OpenedCommits(log: seq<Store>, s: Session, at: nat)
    requires LogOk(log) && Guard(Db(log), s) && HoldsIds(s) && OpenedOk(log, s, at)
    ensures OpenCommit(Db(log), s.writes) && Writing(s, Process.Open(Db(log), s.op.playerId, s.op.balance, s.env))
  {
    hide StoreInv, Extends, HoldsIds, OpenCommit, Open;
    var db := Db(log);
    assert Content(db, WalletLock(s.env.walletId)) == Nothing;
    assert Content(db, OwnerLock((s.op.playerId, s.op.balance.currency))) == Nothing;
    IdsAreFresh(db, s);
    OpenElsewhere(log[at], db, s.op.playerId, s.op.balance, s.env);
    OpenLegal(db, s.op.playerId, s.op.balance, s.env);
    OpenCommitWithInbox(db, Process.Open(db, s.op.playerId, s.op.balance, s.env), s);
  }

  lemma OpenElsewhere(a: Store, b: Store, playerId: Id, balance: Money, env: Env)
    requires Process.Open(a, playerId, balance, env).Committed?
    requires env.walletId !in b.wallets && (playerId, balance.currency) !in b.owners
    ensures Process.Open(b, playerId, balance, env) == Process.Open(a, playerId, balance, env)
  {
  }

  // ---------------------------------------------------------------- the inbox row

  /** The commit's inbox row is new, and its request has its row once the commit is through. */
  ghost predicate InboxFits(db: Store, d: Writes) {
    d.inbox.Some? ==> d.inbox.value.0 !in db.inbox && RowFor(Apply(db, d), d.inbox.value.1)
  }

  lemma InboxRowIsNew(log: seq<Store>, s: Session)
    requires log != [] && InboxHeld(log, s) && Guard(Db(log), s) && s.writes.inbox.Some?
    ensures s.op.SqsMessage? && s.writes.inbox == Some((s.op.messageId, s.op.input)) && s.op.messageId !in Db(log).inbox
  {
    assert Content(Db(log), InboxLock(s.op.messageId)) == Nothing;
  }

  lemma LandsFits(log: seq<Store>, s: Session, w: WalletRow, t: TxRow)
    requires log != [] && InboxHeld(log, s) && Guard(Db(log), s) && RowInHand(s, w, t) && Lands(Db(log), s, t)
    ensures InboxFits(Db(log), s.writes)
  {
    hide Guard, RowCommit, MoveCommit, NewExternal;
    if s.writes.inbox.Some? {
      InboxRowIsNew(log, s);
      NewRowNames(s.env.txId, s.op.input, w, s.env.now);
      LandsWrites(Db(log), s, t);
      RowForNew(Db(log), s.writes, s.op.input);
    }
  }

  lemma LandsWrites(db: Store, s: Session, t: TxRow)
    requires Lands(db, s, t)
    ensures s.writes.tx.Some? && s.writes.tx.value.terms == t.terms
  {
  }

  lemma SilentFits(log: seq<Store>, s: Session)
    requires LogOk(log) && InboxHeld(log, s) && Guard(Db(log), s) && SilentOk(log, s)
    ensures SilentCommit(s.writes) && InboxFits(Db(log), s.writes)
  {
    hide StoreInv, Guard, RowFor;
    if s.writes.inbox.Some? {
      var i := s.writes.inbox.value.1;
      InboxRowIsNew(log, s);
      var at: nat :| at < |log| && RowFor(log[at], i);
      assert Extends(log[at], Db(log));
      Preservation.RowForGrows(log[at], Db(log), i);
      RowForUntouched(Db(log), s.writes, i);
    }
  }

  lemma RowForUntouched(db: Store, d: Writes, i: Input)
    requires d.tx.None? && RowFor(db, i)
    ensures RowFor(Apply(db, d), i)
  {
  }

  lemma NoInboxFits(log: seq<Store>, s: Session)
    requires log != [] && InboxHeld(log, s) && !s.op.SqsMessage?
    ensures InboxFits(Db(log), s.writes)
  {
  }

  // ---------------------------------------------------------------- the theorem

  /** Whatever was committed while the transaction ran, its own commit is legal on the state it meets. */
  lemma CommitLegal(log: seq<Store>, s: Session)
    requires LogOk(log) && Running(log, s) && s.phase.Decided? && PhaseOk(log, s)
    ensures Legal(Db(log), s.writes)
  {
    hide StoreInv, Extends, Guard, HoldsIds, Clear, RowCommit, MoveCommit, OpenCommit, WalletSeen, RowInHand,
         Justified, Lands, HoldsWallet, InboxHeld, Moved, InboxFits;
    CommitFits(log, s);
    LegalFrom(Db(log), s);
  }

  ghost predicate Shaped(db: Store, d: Writes) {
    RowCommit(db, d) || MoveCommit(db, d) || OpenCommit(db, d) || SilentCommit(d)
  }

  lemma LegalFrom(db: Store, s: Session)
    requires Shaped(db, s.writes) && InboxFits(db, s.writes)
    ensures Legal(db, s.writes)
  {
    hide RowCommit, MoveCommit, OpenCommit, SilentCommit, RowFor;
  }

  lemma LandsShaped(db: Store, s: Session, t: TxRow)
    requires Lands(db, s, t)
    ensures Shaped(db, s.writes)
  {
    hide RowCommit, MoveCommit;
  }

  lemma CommitFits(log: seq<Store>, s: Session)
    requires LogOk(log) && Running(log, s) && s.phase.Decided? && PhaseOk(log, s)
    ensures Shaped(Db(log), s.writes) && InboxFits(Db(log), s.writes)
  {
    hide StoreInv, Extends, Guard, HoldsIds, RowCommit, MoveCommit, OpenCommit, SilentCommit, WalletSeen, RowInHand,
         Justified, Lands, HoldsWallet, InboxHeld, Moved, InboxFits, SilentOk, HoldsRow, Writing, ReferenceUsable;
    var db, d, rw, rr, rc := Db(log), s.phase.decision, s.phase.rw, s.phase.rr, s.phase.rc;
    match d {
      case Silent => SilentFits(log, s);
      case Settled(w, t, ref, w', direction) =>
        SettledLands(log, s, w, rw, t, ref, rr, rc, w', direction);
        LandsShaped(db, s, t);
        LandsFits(log, s, w, t);
      case Declined(w, readAt, t, code, cause) =>
        DeclinedLands(log, s, w, readAt, t, code, cause);
        LandsShaped(db, s, t);
        LandsFits(log, s, w, t);
      case Parked(w, t) =>
        ParkedLands(log, s, w, rw, t);
        LandsShaped(db, s, t);
        LandsFits(log, s, w, t);
      case Noted(w, t) =>
        NotedLands(log, s, w, rw, t);
        LandsShaped(db, s, t);
        LandsFits(log, s, w, t);
      case Waited(w, t) =>
        WaitedLands(log, s, w, rw, t);
        LandsShaped(db, s, t);
        LandsFits(log, s, w, t);
      case Expired(t) =>
        ExpiredLands(log, s, t, rw);
        LandsShaped(db, s, t);
        NoInboxFits(log, s);
      case Opened =>
        OpenedCommits(log, s, rw);
        NoInboxFits(log, s);
    }
  }
}
