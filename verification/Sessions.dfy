/** What every reachable state of the machine satisfies, session by session. */
module Sessions {
  import opened Wrappers
  import opened Wallet
  import opened WagerTx
  import opened Ledger
  import opened Store
  import opened Process
  import opened Invariants
  import opened Machine

  // ---------------------------------------------------------------- the log

  /** Committed states are good, and each extends all earlier ones. */
  ghost predicate LogOk(log: seq<Store>) {
    && log != []
    && (forall i | 0 <= i < |log| :: StoreInv(log[i]))
    && (forall i, j | 0 <= i <= j < |log| :: Extends(log[i], log[j]))
  }

  // ---------------------------------------------------------------- locks

  /** What a session has locked is, in the committed state, still what it found. */
  ghost predicate Guard(db: Store, s: Session) {
    forall l | l in s.locks :: Content(db, l) == s.locks[l]
  }

  ghost predicate HoldsIds(s: Session) {
    && s.env.txId != "" && s.env.walletId != "" && s.env.entryId != "" && s.env.event1 != s.env.event2
    && forall l | l in IdLocks(s.env) :: l in s.locks && s.locks[l] == Nothing
  }

  /** The keys of an inserted row are held, and were free. */
  ghost predicate HoldsKeys(s: Session, t: TxRow) {
    && RowLock(t.id) in s.locks && s.locks[RowLock(t.id)] == Nothing
    && KeyLock(t.terms.idempotencyKey) in s.locks && s.locks[KeyLock(t.terms.idempotencyKey)] == Nothing
    && OpLock(OpOf(t.terms)) in s.locks && s.locks[OpLock(OpOf(t.terms))] == Nothing
  }

  ghost predicate HoldsRow(s: Session, t: TxRow) {
    RowLock(t.id) in s.locks && s.locks[RowLock(t.id)] == Row(t) && t.status == PendingReference
  }

  ghost predicate HoldsWallet(s: Session, w: WalletRow) {
    WalletLock(w.id) in s.locks && s.locks[WalletLock(w.id)] == Purse(w)
  }

  /** A message session past its inbox insert holds the inbox row, unless the message was a duplicate. */
  ghost predicate InboxHeld(log: seq<Store>, s: Session)
    requires log != []
  {
    if !s.op.SqsMessage? || s.phase == Arrived then s.writes.inbox == None
    else if s.writes.inbox == None then s.phase.Decided? && s.phase.decision == Silent && s.op.messageId in Db(log).inbox
    else s.writes.inbox == Some((s.op.messageId, s.op.input))
         && InboxLock(s.op.messageId) in s.locks && s.locks[InboxLock(s.op.messageId)] == Nothing
  }

  // ---------------------------------------------------------------- what was read

  ghost predicate WalletSeen(log: seq<Store>, s: Session, w: WalletRow, rw: nat) {
    s.began <= rw < |log| && w.id in log[rw].wallets && log[rw].wallets[w.id] == w
  }

  predicate IsAttempt(op: Op) {
    op.HttpCall? || op.SqsMessage?
  }

  /** The row in hand: built from the request and inserted, or found waiting and locked. */
  ghost predicate RowInHand(s: Session, w: WalletRow, t: TxRow) {
    && w.id == t.terms.walletId
    && if IsAttempt(s.op) then
         var i := InputOf(s.op);
         && w.id == i.walletId && w.playerId == i.playerId && Supported(i.kind)
         && NewExternal(s.env.txId, i, w, s.env.now) == Ok(t) && HoldsKeys(s, t)
       else s.op.ResumeRow? && t.id == s.op.id && HoldsRow(s, t) && w.balance.currency == t.terms.money.currency
            && t.terms.referenceExternalId != ""
  }

  /** The reference was read as this row, under the name the transaction gives. */
  ghost predicate ReferenceSeen(log: seq<Store>, t: TxRow, ref: TxRow, rr: nat) {
    && rr < |log| && ref.id in log[rr].txs && log[rr].txs[ref.id] == ref
    && OpOf(ref.terms) == (t.terms.providerId, t.terms.referenceExternalId)
  }

  ghost predicate ReferenceUsable(log: seq<Store>, t: TxRow, ref: TxRow, rr: nat) {
    && ReferenceSeen(log, t, ref, rr) && t.terms.referenceExternalId != ""
    && ref.status == Processed && ValidateReference(t.terms, ref.terms) == NoCode
  }

  /** Everything a settlement rests on, with the order in which it was read. */
  ghost predicate Clear(log: seq<Store>, s: Session, w: WalletRow, rw: nat, t: TxRow, ref: Option<TxRow>, rr: nat, rc: nat) {
    && WalletSeen(log, s, w, rw) && RowInHand(s, w, t)
    && rw <= rc < |log|
    && w.balance.currency == t.terms.money.currency
    && (ref.None? ==> t.terms.referenceExternalId == "")
    && (ref.Some? ==>
          && ReferenceUsable(log, t, ref.value, rr)
          && (t.terms.kind == Refund || t.terms.kind == Rollback ==> !HasProcessedReversal(log[rc], ref.value.id)))
  }

  /** What justifies a rejection, as it stood when it was read. */
  ghost predicate Justified(log: seq<Store>, s: Session, w: WalletRow, rw: nat, t: TxRow, code: FailureCode, cause: Cause) {
    match cause
    case OtherCurrency => code == CurrencyMismatch && w.balance.currency != t.terms.money.currency
    case BadReference(ref, rr) =>
      && ReferenceSeen(log, t, ref, rr)
      && if ref.status == Processed then code == ValidateReference(t.terms, ref.terms) != NoCode
         else code == ReferenceNotProcessable && IsTerminal(ref.status)
    case Reversed(ref, rr, rc) =>
      && code == ReferenceAlreadyReversed && (t.terms.kind == Refund || t.terms.kind == Rollback)
      && ReferenceUsable(log, t, ref, rr) && rc < |log| && HasProcessedReversal(log[rc], ref.id)
    case Shortfall(ref, direction) =>
      && code == ShortfallCode(t.terms.kind)
      && DirectionOf(t.terms.kind, KindOf(ref)) == Some(direction)
      && Moved(w, direction, t.terms.money, s.env.now) == Err(ErrInsufficientBalance)
  }

  // ---------------------------------------------------------------- decisions

  /** The writes are those of the ending, plus the inbox row, and the answer is the ending's. */
  ghost predicate Writing(s: Session, o: Outcome) {
    && o.Committed? && s.writes == o.writes.(inbox := s.writes.inbox) && o.writes.inbox == None
    && s.phase.Decided? && s.phase.out == o.out
  }

  /** The row a rejection writes: as it was in hand, or with its reference resolved. */
  ghost predicate VariantOf(t': TxRow, t: TxRow) {
    && t'.id == t.id && t'.terms == t.terms && t'.status == t.status
    && t'.failureCode == t.failureCode && t'.financialResult == t.financialResult
  }

  /** Nothing is written but the inbox row, whose request has its row already. */
  ghost predicate SilentOk(log: seq<Store>, s: Session) {
    && PlainWrites(s)
    && (s.writes.inbox.Some? ==> RowForSeen(log, s.writes.inbox.value.1))
  }

  ghost predicate RowForSeen(log: seq<Store>, i: Input) {
    exists at: nat :: at < |log| && RowFor(log[at], i)
  }

  ghost predicate SettledOk(log: seq<Store>, s: Session, w: WalletRow, rw: nat, t: TxRow, ref: Option<TxRow>, rr: nat, rc: nat,
                            w': WalletRow, direction: Direction) {
    && Clear(log, s, w, rw, t, ref, rr, rc) && HoldsWallet(s, w)
    && DirectionOf(t.terms.kind, KindOf(ref)) == Some(direction)
    && Moved(w, direction, t.terms.money, s.env.now) == Ok(w')
    && Writing(s, Settle(ResolvedRow(t, ref, s.env.now), w, w', direction, s.env))
  }

  /** The row a rejection is written from: a shortfall is found after the reference was resolved. */
  function RejectedAs(t: TxRow, cause: Cause, now: Time): TxRow {
    if cause.Shortfall? then ResolvedRow(t, cause.resolved, now) else t
  }

  /** The order of the checks: the currency comes first, and only attempts reject for an unprocessed reference. */
  ghost predicate InOrder(s: Session, w: WalletRow, t: TxRow, cause: Cause) {
    && (cause.OtherCurrency? ==> IsAttempt(s.op))
    && (!cause.OtherCurrency? ==> w.balance.currency == t.terms.money.currency)
    && (cause.BadReference? ==> t.terms.referenceExternalId != "" && (cause.ref.status != Processed ==> IsAttempt(s.op)))
  }

  ghost predicate DeclinedOk(log: seq<Store>, s: Session, w: WalletRow, readAt: nat, t: TxRow, code: FailureCode, cause: Cause) {
    && WalletSeen(log, s, w, readAt) && RowInHand(s, w, t) && Justified(log, s, w, readAt, t, code, cause)
    && InOrder(s, w, t, cause) && Writing(s, Reject(RejectedAs(t, cause, s.env.now), w, code, s.env))
  }

  /** A shortfall is found only after everything a settlement rests on. */
  ghost predicate ShortfallOk(log: seq<Store>, s: Session, w: WalletRow, t: TxRow, cause: Cause, rw: nat, rr: nat, rc: nat) {
    cause.Shortfall? ==> Clear(log, s, w, rw, t, cause.resolved, rr, rc)
  }

  ghost predicate ParkedOk(log: seq<Store>, s: Session, w: WalletRow, rw: nat, t: TxRow) {
    && WalletSeen(log, s, w, rw) && RowInHand(s, w, t) && IsAttempt(s.op) && w.balance.currency == t.terms.money.currency
    && t.terms.referenceExternalId != "" && Writing(s, Park(t, w, s.env))
  }

  ghost predicate NotedOk(log: seq<Store>, s: Session, w: WalletRow, rw: nat, t: TxRow) {
    && WalletSeen(log, s, w, rw) && RowInHand(s, w, t) && w.balance.currency == t.terms.money.currency
    && t.terms.kind == Loss
    && exists t' :: NotedAs(s, w, t, t')
  }

  /** The row a LOSS is written from: nothing was resolved unless a reference was named. */
  ghost predicate NotedAs(s: Session, w: WalletRow, t: TxRow, t': TxRow) {
    VariantOf(t', t) && (t.terms.referenceExternalId == "" ==> t' == t) && Writing(s, Note(t', w, s.env))
  }

  ghost predicate WaitedOk(log: seq<Store>, s: Session, w: WalletRow, rw: nat, t: TxRow) {
    && WalletSeen(log, s, w, rw) && RowInHand(s, w, t) && s.op.ResumeRow? && Writing(s, Wait(t, s.env))
  }

  ghost predicate ExpiredOk(log: seq<Store>, s: Session, t: TxRow, at: nat) {
    && s.op.ExpireRow? && t.id == s.op.id && HoldsRow(s, t) && at < |log| && t.id in log[at].txs && log[at].txs[t.id] == t
    && Writing(s, Process.Expire(log[at], t.id, s.env))
  }

  ghost predicate OpenedOk(log: seq<Store>, s: Session, at: nat) {
    && s.op.OpenAccount? && at < |log|
    && WalletLock(s.env.walletId) in s.locks && s.locks[WalletLock(s.env.walletId)] == Nothing
    && OwnerLock((s.op.playerId, s.op.balance.currency)) in s.locks
    && s.locks[OwnerLock((s.op.playerId, s.op.balance.currency))] == Nothing
    && RowLock(s.env.txId) in s.locks && s.locks[RowLock(s.env.txId)] == Nothing
    && Writing(s, Process.Open(log[at], s.op.playerId, s.op.balance, s.env))
  }

  ghost predicate DecisionOk(log: seq<Store>, s: Session, d: Decision, rw: nat, rr: nat, rc: nat) {
    match d
    case Silent => SilentOk(log, s)
    case Settled(w, t, ref, w', direction) => SettledOk(log, s, w, rw, t, ref, rr, rc, w', direction)
    case Declined(w, readAt, t, code, cause) =>
      DeclinedOk(log, s, w, readAt, t, code, cause) && ShortfallOk(log, s, w, t, cause, readAt, rr, rc)
    case Parked(w, t) => ParkedOk(log, s, w, rw, t)
    case Noted(w, t) => NotedOk(log, s, w, rw, t)
    case Waited(w, t) => WaitedOk(log, s, w, rw, t)
    case Expired(t) => ExpiredOk(log, s, t, rw)
    case Opened => OpenedOk(log, s, rw)
  }

  // ---------------------------------------------------------------- phases

  ghost predicate PlainWrites(s: Session) {
    s.writes == NO_WRITES.(inbox := s.writes.inbox)
  }

  ghost predicate RowWrites(s: Session, t: TxRow) {
    s.writes == NO_WRITES.(inbox := s.writes.inbox, tx := if IsAttempt(s.op) then Some(t) else None)
  }

  ghost predicate FoundOk(log: seq<Store>, s: Session) {
    IsAttempt(s.op) && PlainWrites(s) && RowForSeen(log, InputOf(s.op))
  }

  ghost predicate KeyMissedOk(log: seq<Store>, s: Session, at: nat) {
    && IsAttempt(s.op) && PlainWrites(s) && Supported(InputOf(s.op).kind)
    && s.began <= at < |log| && (InputOf(s.op).idempotencyKey == "" || InputOf(s.op).idempotencyKey !in log[at].byKey)
  }

  ghost predicate OpMissedOk(s: Session) {
    IsAttempt(s.op) && PlainWrites(s) && Supported(InputOf(s.op).kind)
  }

  ghost predicate WalletReadOk(log: seq<Store>, s: Session, w: WalletRow, rw: nat) {
    && IsAttempt(s.op) && PlainWrites(s) && Supported(InputOf(s.op).kind)
    && WalletSeen(log, s, w, rw) && w.id == InputOf(s.op).walletId && w.playerId == InputOf(s.op).playerId
  }

  ghost predicate LockedOk(s: Session, t: TxRow) {
    s.op.ResumeRow? && t.id == s.op.id && HoldsRow(s, t) && PlainWrites(s)
  }

  ghost predicate LoadedOk(log: seq<Store>, s: Session, w: WalletRow, rw: nat, t: TxRow) {
    WalletSeen(log, s, w, rw) && RowInHand(s, w, t) && RowWrites(s, t)
  }

  ghost predicate ReferencedOk(log: seq<Store>, s: Session, w: WalletRow, rw: nat, t: TxRow, ref: TxRow, rr: nat) {
    && LoadedOk(log, s, w, rw, t)
    && rw <= rr && ReferenceUsable(log, t, ref, rr) && w.balance.currency == t.terms.money.currency
  }

  ghost predicate SavedOk(log: seq<Store>, s: Session, w: WalletRow, rw: nat, t: TxRow, ref: Option<TxRow>, rr: nat, rc: nat,
                          w': WalletRow, direction: Direction) {
    && Clear(log, s, w, rw, t, ref, rr, rc) && HoldsWallet(s, w)
    && DirectionOf(t.terms.kind, KindOf(ref)) == Some(direction)
    && Moved(w, direction, t.terms.money, s.env.now) == Ok(w')
  }

  ghost predicate PhaseOk(log: seq<Store>, s: Session) {
    match s.phase
    case Arrived => s.op.SqsMessage? && PlainWrites(s)
    case Begun => PlainWrites(s)
    case Found(t) => FoundOk(log, s)
    case KeyMissed(at) => KeyMissedOk(log, s, at)
    case OpMissed => OpMissedOk(s)
    case WalletRead(w, rw) => WalletReadOk(log, s, w, rw)
    case Locked(t) => LockedOk(s, t)
    case Loaded(w, rw, t) => LoadedOk(log, s, w, rw, t)
    case Referenced(w, rw, t, ref, rr) => ReferencedOk(log, s, w, rw, t, ref, rr)
    case Cleared(w, rw, t, ref, rr, rc) => Clear(log, s, w, rw, t, ref, rr, rc) && RowWrites(s, t)
    case Saved(w, rw, t, ref, rr, rc, w', direction) => SavedOk(log, s, w, rw, t, ref, rr, rc, w', direction)
    case Decided(d, rw, rr, rc, out) => DecisionOk(log, s, d, rw, rr, rc)
    case Done(_) => true
    case Aborted(_) => true
  }

  /** A session that has ended holds nothing; a message that was done has its inbox row. */
  ghost predicate Stopped(log: seq<Store>, s: Session)
    requires log != []
  {
    && s.locks == map[] && s.writes == NO_WRITES
    && (s.phase.Aborted? || (s.phase.Done? && (s.op.SqsMessage? ==> s.op.messageId in Db(log).inbox)))
  }

  ghost predicate Running(log: seq<Store>, s: Session)
    requires log != []
  {
    s.began < |log| && HoldsIds(s) && Guard(Db(log), s) && InboxHeld(log, s)
  }

  ghost predicate SessionOk(log: seq<Store>, s: Session)
    requires log != []
  {
    Stopped(log, s) || (Running(log, s) && !s.phase.Done? && !s.phase.Aborted? && PhaseOk(log, s))
  }

  ghost predicate Disjoint(m: Machine) {
    forall a, b | a in m.sessions && b in m.sessions && a != b :: m.sessions[a].locks.Keys !! m.sessions[b].locks.Keys
  }

  ghost predicate MachineInv(m: Machine) {
    && LogOk(m.log)
    && (forall sid | sid in m.sessions :: SessionOk(m.log, m.sessions[sid]))
    && Disjoint(m)
    && (forall d | d in m.deleted :: d.0 in Db(m.log).inbox)
  }
}
