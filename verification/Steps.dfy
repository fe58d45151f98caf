/** Every step of a session keeps what is known about it. */
module Steps {
  import opened Wrappers
  import opened Money
  import opened Wallet
  import opened WagerTx
  import opened Ledger
  import opened Store
  import opened Process
  import opened Invariants
  import opened Machine
  import opened Sessions
  import Endings

  /** The view of a session that has inserted at most its own PENDING row shows settled rows as committed. */
  lemma SettledRowsSeenAsCommitted(db: Store, d: Writes, providerId: string, externalId: string)
    requires Indexed(db)
    requires d.tx.Some? ==> d.tx.value.id !in db.txs && d.tx.value.status == Pending
    requires FindByOp(Apply(db, d), providerId, externalId).Some?
    requires FindByOp(Apply(db, d), providerId, externalId).value.status != Pending
    ensures var ref := FindByOp(Apply(db, d), providerId, externalId).value;
      ref.id in db.txs && db.txs[ref.id] == ref && ref.id != "" && OpOf(ref.terms) == (providerId, externalId)
  {
  }

  lemma ReversalsSeenAsCommitted(db: Store, d: Writes, id: Id)
    requires d.tx.Some? ==> d.tx.value.id !in db.txs && d.tx.value.status == Pending
    ensures HasProcessedReversal(Apply(db, d), id) == HasProcessedReversal(db, id)
  {
    if HasProcessedReversal(db, id) {
      var r :| r in db.txs && Reverses(db.txs[r], id);
      assert Reverses(Apply(db, d).txs[r], id);
    }
  }

  lemma OwnRowPending(log: seq<Store>, s: Session, w: WalletRow, t: TxRow)
    requires log != [] && Guard(Db(log), s) && RowInHand(s, w, t) && RowWrites(s, t)
    ensures s.writes.tx.Some? ==> s.writes.tx.value.id !in Db(log).txs && s.writes.tx.value.status == Pending
    ensures s.writes.tx.None? ==> t.id in Db(log).txs && Db(log).txs[t.id] == t && t.status == PendingReference
  {
    if s.writes.tx.Some? {
      assert Content(Db(log), RowLock(t.id)) == Nothing;
    } else {
      assert Content(Db(log), RowLock(t.id)) == Row(t);
    }
  }

  // ---------------------------------------------------------------- what every step keeps

  /** The session is the same transaction, with at least the locks it had. */
  ghost predicate Same(s: Session, s': Session) {
    && s'.op == s.op && s'.env == s.env && s'.began == s.began && s'.writes.inbox == s.writes.inbox
    && forall l | l in s.locks :: l in s'.locks && s'.locks[l] == s.locks[l]
  }

  lemma RunningKept(log: seq<Store>, s: Session, s': Session)
    requires log != [] && Running(log, s) && Active(s) && s.phase != Arrived && s'.phase != Arrived
    requires Same(s, s') && Guard(Db(log), s')
    ensures Running(log, s')
  {
    hide IdLocks, Content;
  }

  lemma LocksAdded(db: Store, s: Session, s': Session, a: Lock, b: Lock, c: Lock)
    requires Guard(db, s)
    requires s'.locks == s.locks[a := Content(db, a)][b := Content(db, b)][c := Content(db, c)]
    ensures Guard(db, s') && forall l | l in s.locks :: l in s'.locks && s'.locks[l] == s.locks[l]
  {
    hide Content;
  }

  lemma GuardSame(db: Store, s: Session, s': Session)
    requires Guard(db, s) && s'.locks == s.locks
    ensures Guard(db, s')
  {
    hide Content;
  }

  lemma HeldRow(db: Store, s: Session, id: Id)
    requires Guard(db, s) && RowLock(id) in s.locks
    ensures s.locks[RowLock(id)].Row? ==> id in db.txs && db.txs[id] == s.locks[RowLock(id)].tx
    ensures s.locks[RowLock(id)] == Nothing ==> id !in db.txs
  {
    assert Content(db, RowLock(id)) == s.locks[RowLock(id)];
  }

  lemma FoundIsRowFor(v: Store, i: Input, t: TxRow)
    requires KeysOk(v.byKey, v.txs) && i.idempotencyKey != ""
    requires t.id in v.txs && v.txs[t.id] == t
    requires t.terms.idempotencyKey == i.idempotencyKey && t.terms.payloadHash == Some(CanonicalOf(i))
    ensures RowFor(v, i)
  {
    hide CanonicalOf;
  }

  // ---------------------------------------------------------------- the steps of an attempt

  lemma BegunStep(log: seq<Store>, s: Session)
    requires log != [] && Indexed(Db(log)) && IsAttempt(s.op) && PlainWrites(s)
    ensures var s' := StepBegun(Apply(Db(log), s.writes), |log| - 1, s, InputOf(s.op));
      || s'.phase.Aborted?
      || (s'.phase.KeyMissed? && s' == s.(phase := s'.phase) && (s.began < |log| ==> KeyMissedOk(log, s', s'.phase.at)))
      || (s'.phase.Found? && s' == s.(phase := s'.phase) && FoundOk(log, s'))
  {
    hide CanonicalOf, OpsOk, OwnersOk;
    var db, v, i := Db(log), Apply(Db(log), s.writes), InputOf(s.op);
    assert v.byKey == db.byKey && v.txs == db.txs;
    if i.idempotencyKey != "" && FindByKey(v, i.idempotencyKey).Some?
       && FindByKey(v, i.idempotencyKey).value.terms.payloadHash == Some(CanonicalOf(i)) {
      FoundIsRowFor(db, i, FindByKey(v, i.idempotencyKey).value);
      assert RowFor(log[|log| - 1], i);
    }
  }

  lemma KeyMissedStep(log: seq<Store>, s: Session)
    requires log != [] && Indexed(Db(log)) && Rows(Db(log)) && s.phase.KeyMissed? && KeyMissedOk(log, s, s.phase.at)
    ensures var s' := StepKeyMissed(Apply(Db(log), s.writes), s, InputOf(s.op));
      || s'.phase.Aborted?
      || (s'.phase.OpMissed? && s' == s.(phase := s'.phase) && OpMissedOk(s'))
      || (s'.phase.Found? && s' == s.(phase := s'.phase) && FoundOk(log, s'))
  {
    hide CanonicalOf, OwnersOk, ReferenceOk, WalletOk, Rows, RowFor, FindByOp;
    var db, v, i := Db(log), Apply(Db(log), s.writes), InputOf(s.op);
    var found := FindByOp(v, i.providerId, i.externalId);
    if found.Some? && found.value.terms.idempotencyKey == i.idempotencyKey
       && found.value.terms.payloadHash == Some(CanonicalOf(i)) {
      FoundByOpIsRowFor(db, v, i);
      assert RowFor(log[|log| - 1], i);
    }
  }

  lemma FoundByOpIsRowFor(db: Store, v: Store, i: Input)
    requires Indexed(db) && Rows(db) && v.byOp == db.byOp && v.txs == db.txs && FindByOp(v, i.providerId, i.externalId).Some?
    requires var t := FindByOp(v, i.providerId, i.externalId).value;
      t.terms.idempotencyKey == i.idempotencyKey && t.terms.payloadHash == Some(CanonicalOf(i))
    ensures RowFor(db, i)
  {
    hide CanonicalOf, OwnersOk, ReferenceOk, WalletOk, RowFor;
    var t := FindByOp(v, i.providerId, i.externalId).value;
    assert RowOk(db, t);
    FoundIsRowFor(db, i, t);
  }

  lemma FoundStep(log: seq<Store>, s: Session)
    requires log != [] && s.phase.Found? && FoundOk(log, s) && InboxHeld(log, s)
    ensures var s' := StepFound(Apply(Db(log), s.writes), |log| - 1, s);
      || s'.phase.Aborted?
      || (s'.phase.Decided? && s' == s.(phase := s'.phase) && s'.phase.decision == Silent && SilentOk(log, s'))
  {
    hide CanonicalOf, RowFor;
  }

  lemma OpMissedStep(log: seq<Store>, s: Session)
    requires log != [] && (forall id | id in Db(log).wallets :: Db(log).wallets[id].id == id)
    requires s.began < |log| && s.phase == OpMissed && OpMissedOk(s)
    ensures var s' := StepOpMissed(Apply(Db(log), s.writes), |log| - 1, s, InputOf(s.op));
      || s'.phase.Aborted?
      || (s'.phase.WalletRead? && s' == s.(phase := s'.phase) && WalletReadOk(log, s', s'.phase.w, s'.phase.rw))
  {
  }

  lemma WalletReadStep(log: seq<Store>, s: Session)
    requires log != [] && Guard(Db(log), s) && s.phase.WalletRead? && WalletReadOk(log, s, s.phase.w, s.phase.rw)
    ensures var s' := StepWalletRead(Apply(Db(log), s.writes), |log| - 1, s, InputOf(s.op));
      || s'.phase.Aborted?
      || (s'.phase.Loaded? && Same(s, s') && Guard(Db(log), s') && LoadedOk(log, s', s'.phase.w, s'.phase.rw, s'.phase.t))
  {
    hide NewExternal, TermsOk, Guard;
    var db, s' := Db(log), StepWalletRead(Apply(Db(log), s.writes), |log| - 1, s, InputOf(s.op));
    if s'.phase.Loaded? {
      var t := s'.phase.t;
      NewRowHasKeys(s.env.txId, InputOf(s.op), s.phase.w, s.env.now);
      NotTaken(db, Apply(db, s.writes), t);
      LocksAdded(db, s, s', RowLock(t.id), KeyLock(t.terms.idempotencyKey), OpLock(OpOf(t.terms)));
    }
  }

  lemma NewRowHasKeys(id: Id, i: Input, w: WalletRow, now: Time)
    requires NewExternal(id, i, w, now).Ok?
    ensures var t := NewExternal(id, i, w, now).value; t.terms.idempotencyKey != "" && t.terms.providerId != ""
  {
  }

  lemma NotTaken(db: Store, v: Store, t: TxRow)
    requires v.txs == db.txs && v.byKey == db.byKey && v.byOp == db.byOp
    requires !Taken(v, t) && t.terms.idempotencyKey != "" && t.terms.providerId != ""
    ensures Content(db, RowLock(t.id)) == Content(db, KeyLock(t.terms.idempotencyKey)) == Content(db, OpLock(OpOf(t.terms))) == Nothing
  {
  }

  // ---------------------------------------------------------------- the steps of a resume

  lemma ResumeStep(log: seq<Store>, s: Session)
    requires log != [] && (forall id | id in Db(log).txs :: Db(log).txs[id].id == id)
    requires s.phase == Begun && s.op.ResumeRow? && PlainWrites(s) && InboxHeld(log, s) && Guard(Db(log), s)
    ensures var s' := StepResume(Apply(Db(log), s.writes), |log| - 1, s, s.op.id);
      || s'.phase.Aborted?
      || (Same(s, s') && Guard(Db(log), s') && s'.phase.Locked? && LockedOk(s', s'.phase.t))
      || (Same(s, s') && Guard(Db(log), s') && s'.phase.Decided? && s'.phase.decision == Silent && SilentOk(log, s'))
  {
    hide Guard;
    var db, l := Db(log), RowLock(s.op.id);
    var s' := StepResume(Apply(db, s.writes), |log| - 1, s, s.op.id);
    if !s'.phase.Aborted? {
      assert Content(db, l) == Row(db.txs[s.op.id]);
      assert s'.locks == s.locks[l := Content(db, l)][l := Content(db, l)][l := Content(db, l)];
      LocksAdded(db, s, s', l, l, l);
    }
  }

  lemma LockedStep(log: seq<Store>, s: Session)
    requires log != [] && Rows(Db(log)) && (forall id | id in Db(log).wallets :: Db(log).wallets[id].id == id)
    requires s.began < |log| && s.phase.Locked? && LockedOk(s, s.phase.t) && Guard(Db(log), s)
    ensures var s' := StepLocked(Apply(Db(log), s.writes), |log| - 1, s);
      || s'.phase.Aborted?
      || (s'.phase.Loaded? && s' == s.(phase := s'.phase) && LoadedOk(log, s', s'.phase.w, s'.phase.rw, s'.phase.t))
  {
    hide Guard, ReferenceOk, TermsOk;
    HeldRow(Db(log), s, s.phase.t.id);
    assert RowOk(Db(log), s.phase.t);
  }

  // ---------------------------------------------------------------- the shared steps

  /** What a step from a loaded row may lead to. */
  ghost predicate AfterLoaded(log: seq<Store>, s: Session, s': Session) {
    && s'.op == s.op && s'.env == s.env && s'.began == s.began && s'.locks == s.locks && s'.writes.inbox == s.writes.inbox
    && match s'.phase
       case Referenced(w, rw, t, ref, rr) => ReferencedOk(log, s', w, rw, t, ref, rr)
       case Cleared(w, rw, t, ref, rr, rc) => Clear(log, s', w, rw, t, ref, rr, rc) && RowWrites(s', t)
       case Decided(d, rw, rr, rc, _) =>
         (match d
          case Declined(w, readAt, t, code, cause) => DeclinedOk(log, s', w, readAt, t, code, cause) && !cause.Shortfall?
          case Parked(w, t) => ParkedOk(log, s', w, rw, t)
          case Waited(w, t) => WaitedOk(log, s', w, rw, t)
          case _ => false)
       case _ => false
  }

  /** The writes of an ending, decided on. */
  lemma DecideWrites(s: Session, o: Outcome, d: Decision, rw: nat, rr: nat, rc: nat)
    requires o.Committed? && o.writes.inbox == None
    ensures var s' := Decide(s, o, d, rw, rr, rc);
      s'.phase == Decided(d, rw, rr, rc, o.out) && Writing(s', o) && s' == s.(phase := s'.phase, writes := s'.writes)
      && s'.writes.inbox == s.writes.inbox
  {
  }

  lemma RejectedVariant(t: TxRow, cause: Cause, now: Time)
    ensures VariantOf(RejectedAs(t, cause, now), t)
  {
  }

  lemma DeclineStep(log: seq<Store>, s: Session, w: WalletRow, rw: nat, t: TxRow, t': TxRow, code: FailureCode, cause: Cause, rr: nat, rc: nat)
    requires log != [] && WalletSeen(log, s, w, rw) && RowInHand(s, w, t) && t' == RejectedAs(t, cause, s.env.now) && IsOpen(t.status)
    requires code != NoCode && Justified(log, s, w, rw, t, code, cause) && InOrder(s, w, t, cause)
    ensures var s' := Decide(s, Reject(t', w, code, s.env), Declined(w, rw, t, code, cause), rw, rr, rc);
      s'.phase.Decided? && s' == s.(phase := s'.phase, writes := s'.writes) && s'.writes.inbox == s.writes.inbox
      && s'.phase.decision == Declined(w, rw, t, code, cause) && DeclinedOk(log, s', w, rw, t, code, cause)
  {
    hide NewExternal, Content, RejectedAs;
    RejectedVariant(t, cause, s.env.now);
    DecideWrites(s, Reject(t', w, code, s.env), Declined(w, rw, t, code, cause), rw, rr, rc);
    var s' := Decide(s, Reject(t', w, code, s.env), Declined(w, rw, t, code, cause), rw, rr, rc);
    assert Writing(s', Reject(t', w, code, s'.env));
    assert Justified(log, s', w, rw, t, code, cause);
  }

  lemma InHandIsOpen(s: Session, w: WalletRow, t: TxRow)
    requires RowInHand(s, w, t)
    ensures IsOpen(t.status) && (s.op.ResumeRow? <==> !IsAttempt(s.op))
    ensures t.status == if s.op.ResumeRow? then PendingReference else Pending
  {
  }

  lemma InHandStays(s: Session, s': Session, w: WalletRow, t: TxRow)
    requires RowInHand(s, w, t) && s'.op == s.op && s'.env == s.env && s'.locks == s.locks
    ensures RowInHand(s', w, t)
  {
  }

  lemma StepLoadedKeeps(v: Store, at: nat, s: Session)
    requires s.phase.Loaded? && IsOpen(s.phase.t.status)
    requires s.phase.t.status == if s.op.ResumeRow? then PendingReference else Pending
    ensures var s' := StepLoaded(v, at, s);
      s'.op == s.op && s'.env == s.env && s'.began == s.began && s'.locks == s.locks && s'.writes.inbox == s.writes.inbox
  {
    hide FindByOp, ValidateReference;
  }

  lemma JustifyCurrency(log: seq<Store>, s: Session, w: WalletRow, rw: nat, t: TxRow)
    requires w.balance.currency != t.terms.money.currency
    ensures Justified(log, s, w, rw, t, CurrencyMismatch, OtherCurrency)
  {
  }

  lemma JustifyReference(log: seq<Store>, s: Session, w: WalletRow, rw: nat, t: TxRow, code: FailureCode, ref: TxRow, rr: nat)
    requires ReferenceSeen(log, t, ref, rr)
    requires if ref.status == Processed then code == ValidateReference(t.terms, ref.terms) != NoCode
             else code == ReferenceNotProcessable && IsTerminal(ref.status)
    ensures Justified(log, s, w, rw, t, code, BadReference(ref, rr))
  {
  }

  lemma ResumeInHand(s: Session, w: WalletRow, t: TxRow)
    requires RowInHand(s, w, t) && s.op.ResumeRow?
    ensures w.balance.currency == t.terms.money.currency && t.terms.referenceExternalId != ""
  {
  }

  /** Currency check and the case without a reference. */
  lemma LoadedPlainStep(log: seq<Store>, s: Session)
    requires log != [] && s.phase.Loaded? && LoadedOk(log, s, s.phase.w, s.phase.rw, s.phase.t) && IsAttempt(s.op)
    requires s.phase.w.balance.currency != s.phase.t.terms.money.currency || s.phase.t.terms.referenceExternalId == ""
    ensures AfterLoaded(log, s, StepLoaded(Apply(Db(log), s.writes), |log| - 1, s))
  {
    hide NewExternal, ValidateReference, Reject, DeclinedOk, Justified, HoldsKeys, FindByOp;
    var w, rw, t, at := s.phase.w, s.phase.rw, s.phase.t, |log| - 1;
    InHandIsOpen(s, w, t);
    if w.balance.currency != t.terms.money.currency {
      JustifyCurrency(log, s, w, rw, t);
      DeclineStep(log, s, w, rw, t, t, CurrencyMismatch, OtherCurrency, at, at);
    } else {
      InHandStays(s, StepLoaded(Apply(Db(log), s.writes), at, s), w, t);
    }
  }

  /** The reference is looked up, and is missing, unprocessed, wrong or usable. */
  lemma LoadedReferenceStep(log: seq<Store>, s: Session)
    requires log != [] && Indexed(Db(log)) && Guard(Db(log), s)
    requires s.phase.Loaded? && LoadedOk(log, s, s.phase.w, s.phase.rw, s.phase.t)
    requires s.phase.w.balance.currency == s.phase.t.terms.money.currency && s.phase.t.terms.referenceExternalId != ""
    ensures AfterLoaded(log, s, StepLoaded(Apply(Db(log), s.writes), |log| - 1, s))
  {
    hide KeysOk, OpsOk, OwnersOk, Guard, NewExternal, ValidateReference, Reject, Park, Wait, DeclinedOk, Justified,
         RowInHand, FindByOp;
    var w, rw, t, v, at := s.phase.w, s.phase.rw, s.phase.t, Apply(Db(log), s.writes), |log| - 1;
    OwnRowPending(log, s, w, t);
    InHandIsOpen(s, w, t);
    StepLoadedKeeps(v, at, s);
    InHandStays(s, StepLoaded(v, at, s), w, t);
    var found := FindByOp(v, t.terms.providerId, t.terms.referenceExternalId);
    if found.Some? && found.value.status != Pending {
      SettledRowsSeenAsCommitted(Db(log), s.writes, t.terms.providerId, t.terms.referenceExternalId);
      assert ReferenceSeen(log, t, found.value, at);
    }
    if found.None? || found.value.status != Processed {
      if s.op.ResumeRow? {
        WaitEnds(t, w, s.env);
        DecideWrites(s, Wait(t, s.env), Waited(w, t), rw, at, at);
      } else if found.Some? && IsTerminal(found.value.status) {
        JustifyReference(log, s, w, rw, t, ReferenceNotProcessable, found.value, at);
        DeclineStep(log, s, w, rw, t, t, ReferenceNotProcessable, BadReference(found.value, at), at, at);
      } else {
        ParkEnds(t, w, s.env);
        DecideWrites(s, Park(t, w, s.env), Parked(w, t), rw, at, at);
      }
    } else {
      var code := ValidateReference(t.terms, found.value.terms);
      if code != NoCode {
        JustifyReference(log, s, w, rw, t, code, found.value, at);
        DeclineStep(log, s, w, rw, t, t, code, BadReference(found.value, at), at, at);
      }
    }
  }

  lemma LoadedStep(log: seq<Store>, s: Session)
    requires log != [] && Indexed(Db(log)) && Guard(Db(log), s)
    requires s.phase.Loaded? && LoadedOk(log, s, s.phase.w, s.phase.rw, s.phase.t)
    ensures AfterLoaded(log, s, StepLoaded(Apply(Db(log), s.writes), |log| - 1, s))
  {
    hide Indexed, Guard, AfterLoaded, NewExternal;
    var w, t := s.phase.w, s.phase.t;
    InHandIsOpen(s, w, t);
    if s.op.ResumeRow? {
      ResumeInHand(s, w, t);
    }
    if IsAttempt(s.op) && (w.balance.currency != t.terms.money.currency || t.terms.referenceExternalId == "") {
      LoadedPlainStep(log, s);
    } else {
      LoadedReferenceStep(log, s);
    }
  }

  lemma WaitEnds(t: TxRow, w: WalletRow, env: Env)
    requires t.status == PendingReference
    ensures Wait(t, env).Committed? && Wait(t, env).writes.inbox == None
  {
  }

  lemma ParkEnds(t: TxRow, w: WalletRow, env: Env)
    requires t.status == Pending
    ensures Park(t, w, env).Committed? && Park(t, w, env).writes.inbox == None
  {
  }

  ghost predicate AfterReferenced(log: seq<Store>, s: Session, s': Session) {
    || s'.phase.Aborted?
    || (&& s'.op == s.op && s'.env == s.env && s'.began == s.began && s'.locks == s.locks && s'.writes.inbox == s.writes.inbox
        && match s'.phase
           case Cleared(w, rw, t, ref, rr, rc) => Clear(log, s', w, rw, t, ref, rr, rc) && RowWrites(s', t)
           case Decided(Declined(w, readAt, t, code, cause), rw, rr, rc, _) =>
             DeclinedOk(log, s', w, readAt, t, code, cause) && !cause.Shortfall?
           case _ => false)
  }

  lemma ReferencedStep(log: seq<Store>, s: Session)
    requires log != [] && Guard(Db(log), s)
    requires s.phase.Referenced? && ReferencedOk(log, s, s.phase.w, s.phase.rw, s.phase.t, s.phase.found, s.phase.rr)
    ensures AfterReferenced(log, s, StepReferenced(Apply(Db(log), s.writes), |log| - 1, s))
  {
    hide Guard, NewExternal, ValidateReference, Reject, HasProcessedReversal, DeclinedOk, RowInHand, Justified,
         ReferenceUsable, WalletSeen;
    var w, rw, t, ref, at := s.phase.w, s.phase.rw, s.phase.t, s.phase.found, |log| - 1;
    var s' := StepReferenced(Apply(Db(log), s.writes), at, s);
    OwnRowPending(log, s, w, t);
    InHandIsOpen(s, w, t);
    ReversalsSeenAsCommitted(Db(log), s.writes, ref.id);
    if (t.terms.kind == Refund || t.terms.kind == Rollback) && HasProcessedReversal(Db(log), ref.id) {
      JustifyReversed(log, s, w, rw, t, ref, s.phase.rr);
      DeclineStep(log, s, w, rw, t, t, ReferenceAlreadyReversed, Reversed(ref, s.phase.rr, at), s.phase.rr, at);
    } else if !s'.phase.Aborted? {
      InHandStays(s, s', w, t);
      SeenStays(log, s, s', w, rw);
      UsableNamed(log, t, ref, s.phase.rr);
    }
  }

  lemma SeenStays(log: seq<Store>, s: Session, s': Session, w: WalletRow, rw: nat)
    requires WalletSeen(log, s, w, rw) && s'.began == s.began
    ensures WalletSeen(log, s', w, rw) && rw < |log|
  {
  }

  lemma UsableNamed(log: seq<Store>, t: TxRow, ref: TxRow, rr: nat)
    requires ReferenceUsable(log, t, ref, rr)
    ensures t.terms.referenceExternalId != "" && rr < |log|
  {
  }

  lemma JustifyReversed(log: seq<Store>, s: Session, w: WalletRow, rw: nat, t: TxRow, ref: TxRow, rr: nat)
    requires log != [] && ReferenceUsable(log, t, ref, rr) && (t.terms.kind == Refund || t.terms.kind == Rollback)
    requires HasProcessedReversal(Db(log), ref.id)
    ensures Justified(log, s, w, rw, t, ReferenceAlreadyReversed, Reversed(ref, rr, |log| - 1))
  {
    hide HasProcessedReversal, ReferenceUsable;
  }

  ghost predicate AfterCleared(log: seq<Store>, s: Session, s': Session) {
    (&& s'.op == s.op && s'.env == s.env && s'.began == s.began && s'.writes.inbox == s.writes.inbox
        && match s'.phase
           case Saved(w, rw, t, ref, rr, rc, w', direction) => SavedOk(log, s', w, rw, t, ref, rr, rc, w', direction)
           case Decided(d, rw, rr, rc, _) =>
             (match d
              case Declined(w, readAt, t, code, cause) =>
                DeclinedOk(log, s', w, readAt, t, code, cause) && ShortfallOk(log, s', w, t, cause, readAt, rr, rc)
              case Noted(w, t) => NotedOk(log, s', w, rw, t)
              case _ => false)
           case _ => false)
  }

  lemma ResolvedVariant(t: TxRow, ref: Option<TxRow>, now: Time)
    ensures VariantOf(ResolvedRow(t, ref, now), t) && (ref.None? ==> ResolvedRow(t, ref, now) == t)
  {
  }

  lemma NothingToResolve(log: seq<Store>, s: Session, w: WalletRow, rw: nat, t: TxRow, ref: Option<TxRow>, rr: nat, rc: nat)
    requires Clear(log, s, w, rw, t, ref, rr, rc)
    ensures ref.None? <==> t.terms.referenceExternalId == ""
  {
    hide RowInHand, HasProcessedReversal;
  }

  lemma LossStep(log: seq<Store>, s: Session, r: TxRow)
    requires log != [] && s.phase.Cleared? && s.phase.t.terms.kind == Loss
    requires Clear(log, s, s.phase.w, s.phase.rw, s.phase.t, s.phase.ref, s.phase.rr, s.phase.rc)
    requires r == ResolvedRow(s.phase.t, s.phase.ref, s.env.now)
    ensures var w, rw, t, rr, rc := s.phase.w, s.phase.rw, s.phase.t, s.phase.rr, s.phase.rc;
      var s' := Decide(s, Note(r, w, s.env), Noted(w, t), rw, rr, rc);
      s'.phase.Decided? && AfterCleared(log, s, s') && s'.locks == s.locks
  {
    hide Clear, Note, RowInHand, WalletSeen, ResolvedRow;
    var w, rw, t, ref, rr, rc := s.phase.w, s.phase.rw, s.phase.t, s.phase.ref, s.phase.rr, s.phase.rc;
    var s' := Decide(s, Note(r, w, s.env), Noted(w, t), rw, rr, rc);
    ClearFacts(log, s, w, rw, t, ref, rr, rc);
    ResolvedVariant(t, ref, s.env.now);
    NoteEnds(r, w, s.env);
    DecideWrites(s, Note(r, w, s.env), Noted(w, t), rw, rr, rc);
    InHandStays(s, s', w, t);
    SeenStays(log, s, s', w, rw);
    NothingToResolve(log, s, w, rw, t, ref, rr, rc);
    assert NotedAs(s', w, t, r);
  }

  /** No movement: a LOSS is noted, a shortfall is a rejection, any other failure aborts. */
  lemma ClearedEndStep(log: seq<Store>, s: Session)
    requires log != [] && Guard(Db(log), s)
    requires s.phase.Cleared? && Clear(log, s, s.phase.w, s.phase.rw, s.phase.t, s.phase.ref, s.phase.rr, s.phase.rc)
    requires var direction := DirectionOf(s.phase.t.terms.kind, KindOf(s.phase.ref));
      direction.None? || Moved(s.phase.w, direction.value, s.phase.t.terms.money, s.env.now).Err?
    ensures var s' := StepCleared(Apply(Db(log), s.writes), |log| - 1, s);
      s'.phase.Aborted? || (AfterCleared(log, s, s') && s'.locks == s.locks)
  {
    hide Guard, NewExternal, ValidateReference, Reject, Note, HasProcessedReversal, DeclinedOk, RowInHand, Moved, Clear, SavedOk;
    var w, rw, t, ref, rr, rc := s.phase.w, s.phase.rw, s.phase.t, s.phase.ref, s.phase.rr, s.phase.rc;
    var r := ResolvedRow(t, ref, s.env.now);
    var s' := StepCleared(Apply(Db(log), s.writes), |log| - 1, s);
    ClearFacts(log, s, w, rw, t, ref, rr, rc);
    ResolvedVariant(t, ref, s.env.now);
    var direction := DirectionOf(t.terms.kind, KindOf(ref));
    if direction.None? {
      if t.terms.kind == Loss {
        LossStep(log, s, r);
      }
    } else if Moved(w, direction.value, t.terms.money, s.env.now) == Err(ErrInsufficientBalance) {
      JustifyShortfall(log, s, w, rw, t, ref, direction.value);
      DeclineStep(log, s, w, rw, t, r, ShortfallCode(t.terms.kind), Shortfall(ref, direction.value), rr, rc);
      ShortfallStep(log, s, direction.value, r);
    }
  }

  lemma ShortfallStep(log: seq<Store>, s: Session, direction: Direction, r: TxRow)
    requires log != [] && s.phase.Cleared?
    requires Clear(log, s, s.phase.w, s.phase.rw, s.phase.t, s.phase.ref, s.phase.rr, s.phase.rc)
    requires r == ResolvedRow(s.phase.t, s.phase.ref, s.env.now) && IsOpen(r.status)
    ensures var w, rw, t, ref, rr, rc := s.phase.w, s.phase.rw, s.phase.t, s.phase.ref, s.phase.rr, s.phase.rc;
      var code, cause := ShortfallCode(t.terms.kind), Shortfall(ref, direction);
      var s' := Decide(s, Reject(r, w, code, s.env), Declined(w, rw, t, code, cause), rw, rr, rc);
      ShortfallOk(log, s', w, t, cause, rw, rr, rc)
  {
    hide Clear, ResolvedRow;
    var w, rw, t, ref, rr, rc := s.phase.w, s.phase.rw, s.phase.t, s.phase.ref, s.phase.rr, s.phase.rc;
    var code, cause := ShortfallCode(t.terms.kind), Shortfall(ref, direction);
    var s' := Decide(s, Reject(r, w, code, s.env), Declined(w, rw, t, code, cause), rw, rr, rc);
    RejectEnds(r, w, code, s.env);
    DecideWrites(s, Reject(r, w, code, s.env), Declined(w, rw, t, code, cause), rw, rr, rc);
    ClearStays(log, s, s', w, rw, t, ref, rr, rc);
  }

  lemma RejectEnds(t: TxRow, w: WalletRow, code: FailureCode, env: Env)
    requires IsOpen(t.status) && code != NoCode
    ensures Reject(t, w, code, env).Committed? && Reject(t, w, code, env).writes.inbox == None
  {
  }

  /** The save: it takes the wallet row if the version is still the one read. */
  lemma ClearedSaveStep(log: seq<Store>, s: Session)
    requires log != [] && Guard(Db(log), s)
    requires s.phase.Cleared? && Clear(log, s, s.phase.w, s.phase.rw, s.phase.t, s.phase.ref, s.phase.rr, s.phase.rc)
    requires RowsGrow(log[s.phase.rw], Db(log))
    requires var direction := DirectionOf(s.phase.t.terms.kind, KindOf(s.phase.ref));
      direction.Some? && Moved(s.phase.w, direction.value, s.phase.t.terms.money, s.env.now).Ok?
    requires s.writes.wallet == None
    ensures var s' := StepCleared(Apply(Db(log), s.writes), |log| - 1, s);
      s'.phase.Aborted? || (AfterCleared(log, s, s') && Same(s, s') && Guard(Db(log), s'))
  {
    hide Guard, NewExternal, HasProcessedReversal, DeclinedOk, NotedOk, RowInHand, Moved, Clear, Content;
    var w, rw, t, ref, rr, rc := s.phase.w, s.phase.rw, s.phase.t, s.phase.ref, s.phase.rr, s.phase.rc;
    var db := Db(log);
    var s' := StepCleared(Apply(db, s.writes), |log| - 1, s);
    ClearFacts(log, s, w, rw, t, ref, rr, rc);
    if s'.phase.Saved? {
      SameVersionSameWallet(log, w, rw);
      var l := WalletLock(w.id);
      assert s'.locks == s.locks[l := Content(db, l)][l := Content(db, l)][l := Content(db, l)];
      LocksAdded(db, s, s', l, l, l);
      ClearStays(log, s, s', w, rw, t, ref, rr, rc);
    }
  }

  lemma ClearedStep(log: seq<Store>, s: Session)
    requires log != [] && (forall rw | 0 <= rw < |log| :: RowsGrow(log[rw], Db(log))) && Guard(Db(log), s)
    requires s.phase.Cleared? && RowWrites(s, s.phase.t)
    requires Clear(log, s, s.phase.w, s.phase.rw, s.phase.t, s.phase.ref, s.phase.rr, s.phase.rc)
    ensures var s' := StepCleared(Apply(Db(log), s.writes), |log| - 1, s);
      s'.phase.Aborted? || (AfterCleared(log, s, s') && Same(s, s') && Guard(Db(log), s'))
  {
    hide Guard, AfterCleared, StepCleared, Moved, Clear, RowsGrow;
    ClearFacts(log, s, s.phase.w, s.phase.rw, s.phase.t, s.phase.ref, s.phase.rr, s.phase.rc);
    var direction := DirectionOf(s.phase.t.terms.kind, KindOf(s.phase.ref));
    if direction.None? || Moved(s.phase.w, direction.value, s.phase.t.terms.money, s.env.now).Err? {
      ClearedEndStep(log, s);
      var s' := StepCleared(Apply(Db(log), s.writes), |log| - 1, s);
      if !s'.phase.Aborted? {
        AfterClearedSame(log, s, s');
        GuardSame(Db(log), s, s');
      }
    } else {
      ClearedSaveStep(log, s);
    }
  }

  lemma AfterClearedSame(log: seq<Store>, s: Session, s': Session)
    requires AfterCleared(log, s, s') && !s'.phase.Aborted? && s'.locks == s.locks
    ensures Same(s, s')
  {
    hide DeclinedOk, NotedOk, SavedOk;
  }

  /** The version check is enough: at an equal version the committed wallet is the one that was read. */
  lemma SameVersionSameWallet(log: seq<Store>, w: WalletRow, rw: nat)
    requires log != [] && rw < |log| && RowsGrow(log[rw], Db(log))
    requires w.id in log[rw].wallets && log[rw].wallets[w.id] == w
    requires w.id in Db(log).wallets && Db(log).wallets[w.id].version == w.version
    ensures Db(log).wallets[w.id] == w && Content(Db(log), WalletLock(w.id)) == Purse(w)
  {
    assert WalletGrows(log[rw].wallets[w.id], Db(log).wallets[w.id]);
  }

  lemma ClearFacts(log: seq<Store>, s: Session, w: WalletRow, rw: nat, t: TxRow, ref: Option<TxRow>, rr: nat, rc: nat)
    requires Clear(log, s, w, rw, t, ref, rr, rc)
    ensures WalletSeen(log, s, w, rw) && RowInHand(s, w, t) && IsOpen(t.status) && w.balance.currency == t.terms.money.currency
  {
    InHandIsOpen(s, w, t);
  }

  /** More locks do not change what a settlement rests on. */
  lemma ClearStays(log: seq<Store>, s: Session, s': Session, w: WalletRow, rw: nat, t: TxRow, ref: Option<TxRow>, rr: nat, rc: nat)
    requires Clear(log, s, w, rw, t, ref, rr, rc) && Same(s, s')
    ensures Clear(log, s', w, rw, t, ref, rr, rc)
  {
    hide NewExternal, ReferenceUsable;
  }

  lemma NoteEnds(t: TxRow, w: WalletRow, env: Env)
    requires IsOpen(t.status)
    ensures Note(t, w, env).Committed? && Note(t, w, env).writes.inbox == None
  {
  }

  lemma JustifyShortfall(log: seq<Store>, s: Session, w: WalletRow, rw: nat, t: TxRow, ref: Option<TxRow>, direction: Direction)
    requires DirectionOf(t.terms.kind, KindOf(ref)) == Some(direction)
    requires Moved(w, direction, t.terms.money, s.env.now) == Err(ErrInsufficientBalance)
    ensures Justified(log, s, w, rw, t, ShortfallCode(t.terms.kind), Shortfall(ref, direction))
  {
    hide Moved;
  }

  /** Entry, row and events: nothing in this step can fail any more. */
  lemma SavedStep(log: seq<Store>, s: Session)
    requires log != [] && s.phase.Saved? && WalletOk(s.phase.w) && s.env.entryId != ""
    requires SavedOk(log, s, s.phase.w, s.phase.rw, s.phase.t, s.phase.ref, s.phase.rr, s.phase.rc, s.phase.w', s.phase.direction)
    requires s.phase.t.id != ""
    ensures var s' := StepSaved(s);
      && s'.op == s.op && s'.env == s.env && s'.began == s.began && s'.locks == s.locks && s'.writes.inbox == s.writes.inbox
      && s'.phase.Decided? && s'.phase.decision.Settled?
      && var d := s'.phase.decision;
      SettledOk(log, s', d.w, s'.phase.rw, d.t, d.ref, s'.phase.rr, s'.phase.rc, d.w', d.direction)
  {
    hide NewExternal, ValidateReference, HasProcessedReversal, RowInHand, Moved, Clear, Settle;
    var w, rw, t, ref, rr, rc := s.phase.w, s.phase.rw, s.phase.t, s.phase.ref, s.phase.rr, s.phase.rc;
    var r, w', direction := ResolvedRow(t, ref, s.env.now), s.phase.w', s.phase.direction;
    ClearFacts(log, s, w, rw, t, ref, rr, rc);
    ResolvedVariant(t, ref, s.env.now);
    Endings.SettleCommits(w, r, direction, s.env);
    SettleNoInbox(w, r, w', direction, s.env);
    DecideWrites(s, Settle(r, w, w', direction, s.env), Settled(w, t, ref, w', direction), rw, rr, rc);
    ClearStays(log, s, StepSaved(s), w, rw, t, ref, rr, rc);
  }

  lemma SettleNoInbox(w: WalletRow, t: TxRow, w': WalletRow, direction: Direction, env: Env)
    requires Settle(t, w, w', direction, env).Committed?
    ensures Settle(t, w, w', direction, env).writes.inbox == None
  {
  }

  // ---------------------------------------------------------------- expiry and opening

  lemma ExpireStep(log: seq<Store>, s: Session)
    requires log != [] && (forall id | id in Db(log).txs :: Db(log).txs[id].id == id)
    requires s.phase == Begun && s.op.ExpireRow? && PlainWrites(s) && InboxHeld(log, s) && Guard(Db(log), s)
    ensures var s' := StepExpire(Apply(Db(log), s.writes), |log| - 1, s, s.op.id);
      || s'.phase.Aborted?
      || (Same(s, s') && Guard(Db(log), s') && s'.phase.Decided?
          && ((s'.phase.decision == Silent && SilentOk(log, s'))
              || (s'.phase.decision.Expired? && ExpiredOk(log, s', s'.phase.decision.t, s'.phase.rw))))
  {
    hide Guard;
    var db, v, id, l := Db(log), Apply(Db(log), s.writes), s.op.id, RowLock(s.op.id);
    if id in v.txs {
      assert v.txs == db.txs;
      assert Content(db, l) == Row(db.txs[id]);
      var s1 := s.(locks := s.locks[l := Row(db.txs[id])]);
      assert s1.locks == s.locks[l := Content(db, l)][l := Content(db, l)][l := Content(db, l)];
      LocksAdded(db, s, s1, l, l, l);
      ExpireSame(v, db, id, s.env);
      GuardSame(db, s1, StepExpire(v, |log| - 1, s, id));
    }
  }

  lemma ExpireSame(v: Store, db: Store, id: Id, env: Env)
    requires v.txs == db.txs && id in db.txs
    ensures Process.Expire(v, id, env) == Process.Expire(db, id, env)
    ensures var o := Process.Expire(db, id, env); o.Committed? || o == Unchanged
    ensures var o := Process.Expire(db, id, env); o.Committed? ==> o.writes.inbox == None && db.txs[id].status == PendingReference
  {
  }

  lemma OpenStep(log: seq<Store>, s: Session)
    requires log != [] && s.phase == Begun && s.op.OpenAccount? && PlainWrites(s) && InboxHeld(log, s)
    requires Guard(Db(log), s) && HoldsIds(s)
    ensures var s' := StepOpen(Apply(Db(log), s.writes), |log| - 1, s);
      || s'.phase.Aborted?
      || (Same(s, s') && Guard(Db(log), s') && s'.phase.Decided? && s'.phase.decision == Opened && OpenedOk(log, s', s'.phase.rw))
  {
    hide Guard;
    var db, v := Db(log), Apply(Db(log), s.writes);
    var a, b, c := WalletLock(s.env.walletId), OwnerLock((s.op.playerId, s.op.balance.currency)), RowLock(s.env.txId);
    var s' := StepOpen(v, |log| - 1, s);
    if !s'.phase.Aborted? {
      OpenSame(v, db, s.op.playerId, s.op.balance, s.env);
      FreshRow(db, s);
      assert Content(db, a) == Content(db, b) == Content(db, c) == Nothing;
      LocksAdded(db, s, s', a, b, c);
    }
  }

  lemma FreshRow(db: Store, s: Session)
    requires Guard(db, s) && HoldsIds(s)
    ensures s.env.txId !in db.txs && s.env.walletId !in db.wallets
  {
    assert IdLock(s.env.txId) in IdLocks(s.env) && IdLock(s.env.walletId) in IdLocks(s.env);
    assert Content(db, IdLock(s.env.txId)) == Nothing && Content(db, IdLock(s.env.walletId)) == Nothing;
  }

  lemma OpenSame(v: Store, db: Store, playerId: Id, balance: Money, env: Env)
    requires v.wallets == db.wallets && v.owners == db.owners
    ensures Process.Open(v, playerId, balance, env) == Process.Open(db, playerId, balance, env)
    ensures var o := Process.Open(db, playerId, balance, env); o.Committed? || o.Refused?
    ensures var o := Process.Open(db, playerId, balance, env); o.Committed? ==>
      o.writes.inbox == None && env.walletId !in db.wallets && (playerId, balance.currency) !in db.owners
  {
  }
}
