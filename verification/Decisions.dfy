/** The decision of every call, told in columns and numbers: what a request, a resume, an expiry or an opening comes to on
    a state, case change case, and the exact rows it leaves. */
module Decisions {
  import opened Int64
  import opened Wrappers
  import opened Money
  import opened Wallet
  import opened WagerTx
  import opened Ledger
  import opened Store
  import opened Process
  import opened Invariants
  import opened Contents
  import opened Records
  import Atomic
  import Commits
  import Endings
  import LateReference

  // ---------------------------------------------------------------- the table

  /** What becomes of a transaction on a wallet. */
  datatype Verdict =
    | Rejects(code: FailureCode)
    | Waits
    | Notes                       // processed, without a movement
    | MovesBy(change: int)            // processed, the balance moved change so much
    | Overflows                   // the call fails and leaves nothing

  /** The row that bears the name a transaction gives as its reference, if there is one. */
  ghost predicate IsNamed(s: Store, t: Terms, ref: Option<TxRow>) {
    match ref
    case Some(r) =>
      r.id in s.txs && s.txs[r.id] == r && r.terms.providerId == t.providerId && r.terms.externalId == t.referenceExternalId
    case None =>
      forall id | id in s.txs :: !(s.txs[id].terms.providerId == t.providerId && s.txs[id].terms.externalId == t.referenceExternalId)
  }

  /** Some REFUND or ROLLBACK of this row has been processed. */
  ghost predicate IsReversed(s: Store, referenceId: Id) {
    exists id | id in s.txs :: s.txs[id].resolvedReferenceId == referenceId && s.txs[id].status == Processed
                               && (s.txs[id].terms.kind == Refund || s.txs[id].terms.kind == Rollback)
  }

  /** BETs take, WINs and REFUNDs give, a ROLLBACK undoes what its reference did. */
  function Change(kind: Kind, refKind: Kind, units: int): int {
    if kind == Bet || (kind == Rollback && (refKind == Win || refKind == Refund)) then -units else units
  }

  /** Once the reference, if one is named, is found in order: by the kind and the balance. */
  function ByBalance(t: Terms, refKind: Kind, balance: int): Verdict {
    var after := balance + Change(t.kind, refKind, t.money.minorUnits);
    if t.kind == Loss then Notes
    else if after < 0 then Rejects(if t.kind == Bet then InsufficientBalance else ReversalInsufficientBalance)
    else if after > MAX then Overflows
    else MovesBy(after - balance)
  }

  /** With the reference processed. */
  ghost function ByReference(s: Store, t: Terms, ref: TxRow, balance: int): Verdict {
    if !SameDeal(t, ref.terms) then Rejects(ReferenceMismatch)
    else if !MayReferTo(t.kind, ref.terms.kind) then Rejects(ReferenceNotProcessable)
    else if (t.kind == Refund || t.kind == Rollback) && IsReversed(s, ref.id) then Rejects(ReferenceAlreadyReversed)
    else ByBalance(t, ref.terms.kind, balance)
  }

  /** A request that is new. */
  ghost function OnArrival(s: Store, t: Terms, ref: Option<TxRow>, w: WalletRow): Verdict {
    if w.balance.currency != t.money.currency then Rejects(CurrencyMismatch)
    else if t.referenceExternalId == "" then ByBalance(t, t.kind, w.balance.minorUnits)
    else if ref.None? || ref.value.status == Pending || ref.value.status == PendingReference then Waits
    else if ref.value.status != Processed then Rejects(ReferenceNotProcessable)
    else ByReference(s, t, ref.value, w.balance.minorUnits)
  }

  /** A row that has waited: anything but a processed reference is waited for further. */
  ghost function OnResume(s: Store, t: Terms, ref: Option<TxRow>, w: WalletRow): Verdict {
    if ref.None? || ref.value.status != Processed then Waits else ByReference(s, t, ref.value, w.balance.minorUnits)
  }

  // ---------------------------------------------------------------- what a verdict leaves

  /** The row once its reference has been found in order. */
  function Resolved(t: TxRow, ref: Option<TxRow>): TxRow {
    if t.terms.referenceExternalId == "" || ref.None? then t else t.(resolvedReferenceId := ref.value.id, retryAttempts := 0, nextRetryAt := None)
  }

  /** Only a shortfall is found after the reference was resolved. */
  predicate IsShortfall(code: FailureCode) {
    code == InsufficientBalance || code == ReversalInsufficientBalance
  }

  function MovedWallet(w: WalletRow, change: int, now: Time): WalletRow
    requires Fits(w.balance.minorUnits + change)
  {
    w.(balance := Money(w.balance.minorUnits + change, w.balance.currency), version := w.version + 1, updatedAt := now)
  }

  /** The outcome writes this row, these events and nothing else. */
  ghost predicate WritesOnly(o: Outcome, row: TxRow, env: Env) {
    && o.Committed? && o.writes.tx == Some(row) && o.writes.wallet == None && o.writes.entry == None && o.writes.inbox == None
    && Says(o.writes, o.out, env)
  }

  /** The outcome is the verdict's, to the last column. */
  ghost predicate Carries(o: Outcome, v: Verdict, t: TxRow, ref: Option<TxRow>, w: WalletRow, env: Env) {
    match v
    case Rejects(code) =>
      WritesOnly(o, (if IsShortfall(code) then Resolved(t, ref) else t)
                    .(status := Rejected, failureCode := code, financialResult := Some(w.balance), updatedAt := env.now), env)
    case Waits =>
      if t.status == Pending then
        WritesOnly(o, t.(status := PendingReference, updatedAt := env.now), env) && o.out.balance == w.balance && o.writes.events != []
      else
        var row := t.(retryAttempts := t.retryAttempts + 1, updatedAt := env.now,
                      nextRetryAt := Some(env.now + ReferenceRetryBackoff(t.retryAttempts + 1)));
        WritesOnly(o, row, env) && o.writes.events == []
    case Notes => WritesOnly(o, t.(status := Processed, financialResult := Some(w.balance), updatedAt := env.now), env)
    case MovesBy(change) =>
      && Fits(w.balance.minorUnits + change)
      && var w' := MovedWallet(w, change, env.now);
      && o.Committed? && Says(o.writes, o.out, env) && o.writes.inbox == None
      && o.writes.wallet == Some(w')
      && o.writes.tx == Some(Resolved(t, ref).(status := Processed, financialResult := Some(w'.balance), updatedAt := env.now))
      && o.writes.entry == Some(Entry(env.entryId, w.id, t.id, if change < 0 then Debit else Credit, t.terms.money, w.balance, w'.balance, env.now))
    case Overflows => o == Refused(ErrOverflow)
  }

  // ---------------------------------------------------------------- endings

  lemma RejectCarries(t: TxRow, w: WalletRow, code: FailureCode, ref: Option<TxRow>, env: Env)
    requires Unended(t) && code != NoCode && !IsShortfall(code)
    ensures Carries(Reject(t, w, code, env), Rejects(code), t, ref, w, env)
  {
  }

  lemma WaitCarries(t: TxRow, w: WalletRow, ref: Option<TxRow>, env: Env)
    requires Unended(t)
    ensures t.status == Pending ==> Carries(Park(t, w, env), Waits, t, ref, w, env)
    ensures t.status == PendingReference ==> Carries(Wait(t, env), Waits, t, ref, w, env)
  {
    hide ReferenceRetryBackoff;
  }

  /** The row in hand and its wallet are in order. */
  ghost predicate Ready(t: TxRow, w: WalletRow, env: Env) {
    && Unended(t) && TermsOk(t.terms) && t.terms.kind != Opening && t.terms.walletId == w.id && WalletOk(w) && t.id != "" && env.entryId != ""
    && w.balance.currency == t.terms.money.currency
  }

  /** The movement in numbers. */
  lemma MovedInNumbers(w: WalletRow, t: Terms, refKind: Kind, direction: Direction, now: Time)
    requires WalletOk(w) && TermsOk(t) && t.kind != Loss && w.balance.currency == t.money.currency
    requires direction == if Change(t.kind, refKind, t.money.minorUnits) < 0 then Debit else Credit
    ensures var change := Change(t.kind, refKind, t.money.minorUnits); var after := w.balance.minorUnits + change;
      var r := Moved(w, direction, t.money, now);
      && (after < 0 <==> r == Err(ErrInsufficientBalance))
      && (after > MAX <==> r == Err(ErrOverflow))
      && (0 <= after <= MAX <==> r.Ok?)
      && (r.Ok? ==> r.value == MovedWallet(w, change, now))
  {
  }

  lemma DirectionInNumbers(t: Terms, ref: Option<TxRow>)
    requires TermsOk(t) && t.kind != Loss && t.kind != Opening && (t.kind == Rollback ==> ref.Some?)
    ensures var refKind := if ref.Some? then ref.value.terms.kind else t.kind;
      DirectionOf(t.kind, if ref.Some? then Some(ref.value.terms.kind) else None)
        == Some(if Change(t.kind, refKind, t.money.minorUnits) < 0 then Debit else Credit)
  {
  }

  lemma SettleCarries(t: TxRow, r: TxRow, w: WalletRow, change: int, ref: Option<TxRow>, env: Env)
    requires Ready(t, w, env) && r == Resolved(t, ref).(updatedAt := r.updatedAt) && Fits(w.balance.minorUnits + change) && change != 0
    requires t.terms.kind != Loss && t.terms.money.minorUnits == (if change < 0 then -change else change) && w.balance.minorUnits + change >= 0
    ensures Carries(Settle(r, w, MovedWallet(w, change, env.now), if change < 0 then Debit else Credit, env), MovesBy(change), t, ref, w, env)
  {
    var w', direction := MovedWallet(w, change, env.now), if change < 0 then Debit else Credit;
    var entry := NewEntry(env.entryId, w.id, r.id, direction, r.terms.money, w.balance, w'.balance, env.now);
    assert entry.Ok?;
    hide NewEntry, TermsOk, WalletOk;
  }

  /** From the movement on, the outcome is what the balance says. */
  lemma FinishCarries(t: TxRow, r: TxRow, w: WalletRow, ref: Option<TxRow>, env: Env)
    requires Ready(t, w, env) && r == Resolved(t, ref).(updatedAt := r.updatedAt)
    requires (t.terms.kind == Refund || t.terms.kind == Rollback ==> ref.Some?) && (t.terms.kind == Loss ==> r == t)
    requires t.terms.referenceExternalId == "" ==> ref.None?
    ensures Carries(Finish(w, r, ref, env), ByBalance(t.terms, if ref.Some? then ref.value.terms.kind else t.terms.kind, w.balance.minorUnits),
                    t, ref, w, env)
  {
    hide Moved, Settle, Reject, Note, Carries, MovedWallet;
    var refKind := if ref.Some? then ref.value.terms.kind else t.terms.kind;
    if t.terms.kind == Loss {
      NoteCarries(t, w, ref, env);
    } else {
      var change := Change(t.terms.kind, refKind, t.terms.money.minorUnits);
      DirectionInNumbers(t.terms, ref);
      MovedInNumbers(w, t.terms, refKind, if change < 0 then Debit else Credit, env.now);
      if w.balance.minorUnits + change < 0 {
        ShortfallCarries(t, r, w, ref, env);
      } else if w.balance.minorUnits + change > MAX {
        OverflowCarries(t, w, ref, env);
      } else {
        SettleCarries(t, r, w, change, ref, env);
      }
    }
  }

  lemma OverflowCarries(t: TxRow, w: WalletRow, ref: Option<TxRow>, env: Env)
    ensures Carries(Refused(ErrOverflow), Overflows, t, ref, w, env)
  {
  }

  lemma NoteCarries(t: TxRow, w: WalletRow, ref: Option<TxRow>, env: Env)
    requires Unended(t) && t.terms.kind == Loss
    ensures Carries(Note(t, w, env), Notes, t, ref, w, env)
  {
  }

  lemma ShortfallCarries(t: TxRow, r: TxRow, w: WalletRow, ref: Option<TxRow>, env: Env)
    requires Unended(t) && r == Resolved(t, ref).(updatedAt := r.updatedAt)
    ensures var code := if t.terms.kind == Bet then InsufficientBalance else ReversalInsufficientBalance;
      Carries(Reject(r, w, ShortfallCode(t.terms.kind), env), Rejects(code), t, ref, w, env)
  {
  }

  lemma ReversedAlike(s: Store, referenceId: Id)
    ensures HasProcessedReversal(s, referenceId) <==> IsReversed(s, referenceId)
  {
    if HasProcessedReversal(s, referenceId) {
      var id :| id in s.txs && Reverses(s.txs[id], referenceId);
    }
    if IsReversed(s, referenceId) {
      var id :| id in s.txs && s.txs[id].resolvedReferenceId == referenceId && s.txs[id].status == Processed
                && (s.txs[id].terms.kind == Refund || s.txs[id].terms.kind == Rollback);
      assert Reverses(s.txs[id], referenceId);
    }
  }

  lemma ReferencedCarries(s: Store, v: Store, t: TxRow, w: WalletRow, ref: TxRow, env: Env)
    requires Ready(t, w, env) && t.terms.referenceExternalId != "" && ref.id != ""
    requires HasProcessedReversal(v, ref.id) == HasProcessedReversal(s, ref.id)
    ensures Carries(WithReference(v, w, t, ref, env), ByReference(s, t.terms, ref, w.balance.minorUnits), t, Some(ref), w, env)
  {
    hide Reject, Finish, Carries, HasProcessedReversal, IsReversed, ValidateReference, SameDeal, MayReferTo, ByBalance;
    ReferenceVerdict(t.terms, ref.terms);
    ReversedAlike(s, ref.id);
    var code := ValidateReference(t.terms, ref.terms);
    VerdictCodes(t.terms, ref.terms);
    if code != NoCode {
      RejectCarries(t, w, code, Some(ref), env);
    } else if (t.terms.kind == Refund || t.terms.kind == Rollback) && HasProcessedReversal(v, ref.id) {
      RejectCarries(t, w, ReferenceAlreadyReversed, Some(ref), env);
    } else {
      NoLossRefers(t.terms);
      var r := ReferenceResolved(t, ref.id, env.now).value;
      FinishCarries(t, r, w, Some(ref), env);
    }
  }

  lemma NoLossRefers(t: Terms)
    requires TermsOk(t) && t.referenceExternalId != ""
    ensures t.kind != Loss
  {
  }

  lemma VerdictCodes(t: Terms, ref: Terms)
    ensures var code := ValidateReference(t, ref); code == NoCode || code == ReferenceMismatch || code == ReferenceNotProcessable
  {
  }

  // ---------------------------------------------------------------- new requests

  /** The row a request asks for. */
  function Asked(i: Input, w: WalletRow, env: Env): TxRow {
    TxRow(env.txId,
          Terms(i.kind, w.id, w.playerId, i.money, i.providerId, i.externalId, i.idempotencyKey,
                Some(Canonical(i.providerId, i.externalId, i.playerId, i.walletId, i.roundId, i.gameId, i.kind,
                               DecimalString(i.money.minorUnits), i.money.currency, i.referenceExternalId)),
                i.roundId, i.gameId, i.referenceExternalId, env.now),
          Pending, "", NoCode, None, 0, None, env.now)
  }

  /** A new request of the wallet's player that satisfies the table's checks. */
  ghost predicate IsAdmissible(s: Store, i: Input, env: Env) {
    && IsKeyed(s, i, None) && IsOperated(s, i, None) && i.walletId in s.wallets && s.wallets[i.walletId].playerId == i.playerId && i.kind != Opening
    && TermsOk(Asked(i, s.wallets[i.walletId], env).terms)
  }

  lemma AskedIsBuilt(i: Input, w: WalletRow, env: Env)
    requires env.txId != "" && i.kind != Opening && TermsOk(Asked(i, w, env).terms)
    ensures NewExternal(env.txId, i, w, env.now) == Ok(Asked(i, w, env))
  {
    ExternalExactlyWhen(env.txId, i, w, env.now);
  }

  lemma NewIsFree(s: Store, i: Input, t: TxRow)
    requires Indexed(s) && IsKeyed(s, i, None) && IsOperated(s, i, None) && t.id !in s.txs
    requires t.terms.idempotencyKey == i.idempotencyKey && t.terms.providerId == i.providerId && t.terms.externalId == i.externalId
    ensures !Taken(s, t)
  {
  }

  lemma NamedIsFound(s: Store, t: Terms, ref: Option<TxRow>)
    requires Indexed(s) && IsNamed(s, t, ref) && t.providerId != ""
    ensures FindByOp(s, t.providerId, t.referenceExternalId) == ref && (ref.Some? ==> ref.value.id != "")
  {
  }

  /** What a new request comes to: the table's verdict, carried out to the last column. */
  lemma ArrivalDecided(s: Store, i: Input, env: Env, ref: Option<TxRow>)
    requires Indexed(s) && Rows(s) && Endings.Fresh(s, env) && IsAdmissible(s, i, env)
    requires IsNamed(s, Asked(i, s.wallets[i.walletId], env).terms, ref)
    ensures var w, t := s.wallets[i.walletId], Asked(i, s.wallets[i.walletId], env);
      Carries(Attempt(s, i, env), OnArrival(s, t.terms, ref, w), t, if t.terms.referenceExternalId == "" then None else ref, w, env)
  {
    hide NewExternal, Taken, AfterInsert, Attempt, Carries, OnArrival, Rows, TermsOk, Indexed, IsKeyed, IsOperated, IsNamed, FindByOp;
    var w, t := s.wallets[i.walletId], Asked(i, s.wallets[i.walletId], env);
    AskedIsBuilt(i, w, env);
    NewIsFree(s, i, t);
    WalletInOrder(s, i.walletId);
    KindIsSupported(t.terms);
    Commits.AttemptInsertsRow(s, i, w, t, env);
    InsertedDecided(s, t, w, ref, env);
  }

  lemma WalletInOrder(s: Store, id: Id)
    requires Indexed(s) && Rows(s) && id in s.wallets
    ensures s.wallets[id].id == id && WalletOk(s.wallets[id])
  {
  }

  lemma KindIsSupported(t: Terms)
    requires TermsOk(t) && t.kind != Opening
    ensures Supported(t.kind) && t.providerId != ""
  {
  }

  lemma InsertedDecided(s: Store, t: TxRow, w: WalletRow, ref: Option<TxRow>, env: Env)
    requires Indexed(s) && !Taken(s, t) && t.status == Pending && Unended(t) && TermsOk(t.terms) && t.terms.kind != Opening
    requires t.terms.walletId == w.id && WalletOk(w) && t.id != "" && env.entryId != "" && IsNamed(s, t.terms, ref)
    ensures Carries(AfterInsert(PutTx(s, t), w, t, env), OnArrival(s, t.terms, ref, w), t,
                    if t.terms.referenceExternalId == "" then None else ref, w, env)
  {
    hide Carries, Reject, Park, Finish, WithReference, FindByOp, Taken, ByBalance, ByReference, Indexed, IsNamed, TermsOk, WalletOk;
    KindIsSupported(t.terms);
    NamedIsFound(s, t.terms, ref);
    LateReference.SeenBesideOwn(s, t, t.terms.providerId, t.terms.referenceExternalId);
    if w.balance.currency != t.terms.money.currency {
      RejectCarries(t, w, CurrencyMismatch, if t.terms.referenceExternalId == "" then None else ref, env);
    } else if t.terms.referenceExternalId == "" {
      NoReferenceNeeded(t.terms);
      FinishCarries(t, t, w, None, env);
    } else {
      WaitCarries(t, w, ref, env);
      RejectCarries(t, w, ReferenceNotProcessable, ref, env);
      if ref.Some? && ref.value.status == Processed {
        Commits.NotTakenId(s, t);
        Atomic.ReversalsElsewhere(s, t, ref.value.id);
        ReferencedCarries(s, PutTx(s, t), t, w, ref.value, env);
      }
    }
  }

  lemma NoReferenceNeeded(t: Terms)
    requires TermsOk(t) && t.referenceExternalId == ""
    ensures t.kind != Refund && t.kind != Rollback
  {
  }

  // ---------------------------------------------------------------- waiting rows

  lemma WaitingIsReady(s: Store, id: Id, env: Env)
    requires Indexed(s) && Rows(s) && id in s.txs && s.txs[id].status == PendingReference && env.entryId != ""
    ensures var t := s.txs[id];
      t.id == id && t.terms.walletId in s.wallets && Ready(t, s.wallets[t.terms.walletId], env) && t.terms.referenceExternalId != ""
      && t.terms.providerId != ""
  {
    assert RowOk(s, s.txs[id]);
  }

  /** What resuming a row comes to: nothing for a row that does not wait, otherwise the table's verdict. */
  lemma ResumeDecided(s: Store, id: Id, env: Env, ref: Option<TxRow>)
    requires Indexed(s) && Rows(s) && env.entryId != "" && (id in s.txs ==> IsNamed(s, s.txs[id].terms, ref))
    ensures var o := Resume(s, id, env);
      if id !in s.txs then o == Refused(ErrNotFound)
      else if s.txs[id].status != PendingReference then o == Unchanged
      else
        && s.txs[id].terms.walletId in s.wallets
        && var t := s.txs[id]; var w := s.wallets[t.terms.walletId]; Carries(o, OnResume(s, t.terms, ref, w), t, ref, w, env)
  {
    hide Carries, Wait, WithReference, FindByOp, ByReference, Indexed, IsNamed, Rows, Ready;
    if id in s.txs && s.txs[id].status == PendingReference {
      var t := s.txs[id];
      WaitingIsReady(s, id, env);
      var w := s.wallets[t.terms.walletId];
      ReadyIsUnended(t, w, env);
      NamedIsFound(s, t.terms, ref);
      WaitCarries(t, w, ref, env);
      if ref.Some? && ref.value.status == Processed {
        ReferencedCarries(s, s, t, w, ref.value, env);
      }
    }
  }

  lemma ReadyIsUnended(t: TxRow, w: WalletRow, env: Env)
    requires Ready(t, w, env)
    ensures Unended(t)
  {
  }

  lemma ExpireWrites(t: TxRow, s: Store, env: Env)
    requires t.id in s.txs && s.txs[t.id] == t && t.status == PendingReference && Unended(t)
    ensures WritesOnly(Expire(s, t.id, env), t.(status := Failed, failureCode := ReferenceExpired, updatedAt := env.now), env)
  {
  }

  /** What expiring a row comes to: FAILED with REFERENCE_EXPIRED and the event that says so, for a waiting row only. */
  lemma ExpiryDecided(s: Store, id: Id, env: Env)
    requires Indexed(s) && Rows(s)
    ensures var o := Expire(s, id, env);
      if id !in s.txs then o == Refused(ErrNotFound)
      else if s.txs[id].status != PendingReference then o == Unchanged
      else WritesOnly(o, s.txs[id].(status := Failed, failureCode := ReferenceExpired, updatedAt := env.now), env)
  {
    hide WritesOnly, Rows, KeysOk, OpsOk, OwnersOk;
    if id in s.txs && s.txs[id].status == PendingReference {
      StoredIsUnended(s, id);
      ExpireWrites(s.txs[id], s, env);
    }
  }

  // ---------------------------------------------------------------- repeated requests

  /** The row with the request's key, if there is one. */
  ghost predicate IsKeyed(s: Store, i: Input, r: Option<TxRow>) {
    match r
    case Some(t) => t.id in s.txs && s.txs[t.id] == t && t.terms.idempotencyKey == i.idempotencyKey != ""
    case None => i.idempotencyKey != "" ==> forall id | id in s.txs :: s.txs[id].terms.idempotencyKey != i.idempotencyKey
  }

  /** The row with the request's operation, if there is one. */
  ghost predicate IsOperated(s: Store, i: Input, r: Option<TxRow>) {
    match r
    case Some(t) =>
      t.id in s.txs && s.txs[t.id] == t && t.terms.providerId == i.providerId != "" && t.terms.externalId == i.externalId
    case None =>
      i.providerId != "" ==>
        forall id | id in s.txs :: !(s.txs[id].terms.providerId == i.providerId && s.txs[id].terms.externalId == i.externalId)
  }

  /** The answer a row gives: what it records, or the wallet's balance while it records nothing. */
  function AnswerOf(s: Store, t: TxRow): Output
    requires t.financialResult.Some? || t.terms.walletId in s.wallets
  {
    Output(t.id, t.status, if t.financialResult.Some? then t.financialResult.value else s.wallets[t.terms.walletId].balance,
           t.failureCode, true)
  }

  /** The state as every run leaves it. */
  ghost predicate Orderly(s: Store) {
    Indexed(s) && Rows(s) && PayloadsRecorded(s) && NothingUnderNull(s)
  }

  lemma KeyedIsFound(s: Store, i: Input, r: Option<TxRow>)
    requires Indexed(s) && IsKeyed(s, i, r) && i.idempotencyKey != ""
    ensures FindByKey(s, i.idempotencyKey) == r
  {
  }

  lemma OperatedIsFound(s: Store, i: Input, r: Option<TxRow>)
    requires Indexed(s) && NothingUnderNull(s) && IsOperated(s, i, r)
    ensures FindByOp(s, i.providerId, i.externalId) == r
  {
  }

  lemma StoredHasWallet(s: Store, t: TxRow)
    requires Rows(s) && t.id in s.txs && s.txs[t.id] == t
    ensures t.terms.walletId in s.wallets
  {
    assert RowOk(s, s.txs[t.id]);
  }

  lemma AnswerIsReplay(s: Store, t: TxRow)
    requires t.terms.walletId in s.wallets
    ensures Replay(s, t) == Replayed(AnswerOf(s, t))
  {
  }

  /** A row with the request's payload is of its kind, which is one that requests can have. */
  lemma PayloadIsSupported(s: Store, i: Input, t: TxRow)
    requires Rows(s) && PayloadsRecorded(s) && t.id in s.txs && s.txs[t.id] == t && t.terms.payloadHash == Some(CanonicalOf(i))
    ensures Supported(i.kind) && t.terms.kind == i.kind
  {
    assert RowOk(s, s.txs[t.id]);
    hide DecimalString;
  }

  /** What a request that is not new comes to. By key: the answer of its row if the payload is the same, otherwise a
      conflict. With an unused key, by operation: a conflict, as the row has another key. */
  lemma RepeatDecided(s: Store, i: Input, env: Env, keyed: Option<TxRow>, operated: Option<TxRow>)
    requires Orderly(s) && IsKeyed(s, i, keyed) && IsOperated(s, i, operated) && (keyed.Some? || operated.Some?)
    ensures var o := Attempt(s, i, env);
      var t := if keyed.Some? then keyed.value else operated.value;
      && t.terms.walletId in s.wallets
      && if t.terms.idempotencyKey == i.idempotencyKey && t.terms.payloadHash == Some(CanonicalOf(i)) then o == Replayed(AnswerOf(s, t))
         else if Supported(i.kind) then o == Refused(ErrIdempotencyConflict)
         else o == Refused(ErrUnsupportedKind)
  {
    hide FindByKey, FindByOp, Indexed, Rows, PayloadsRecorded, CanonicalOf, NewExternal, Taken, AfterInsert, Supported, Replay;
    var t := if keyed.Some? then keyed.value else operated.value;
    StoredHasWallet(s, t);
    AnswerIsReplay(s, t);
    if i.idempotencyKey != "" {
      KeyedIsFound(s, i, keyed);
    }
    OperatedIsFound(s, i, operated);
    if t.terms.payloadHash == Some(CanonicalOf(i)) {
      PayloadIsSupported(s, i, t);
    }
  }

  /** A request whose row is there under its key with its payload writes nothing and gets exactly what the row records,
      with `replay` set. */
  lemma RepeatedRequestIsAnswered(s: Store, i: Input, env: Env, t: TxRow)
    requires Orderly(s) && t.id in s.txs && s.txs[t.id] == t
    requires t.terms.idempotencyKey == i.idempotencyKey != "" && t.terms.payloadHash == Some(CanonicalOf(i))
    ensures t.terms.walletId in s.wallets
    ensures Attempt(s, i, env) == Replayed(Output(t.id, t.status,
      if t.financialResult.Some? then t.financialResult.value else s.wallets[t.terms.walletId].balance, t.failureCode, true))
  {
    hide Attempt, Orderly, CanonicalOf;
    var operated := OperatedRow(s, i);
    RepeatDecided(s, i, env, Some(t), operated);
  }

  ghost function OperatedRow(s: Store, i: Input): (r: Option<TxRow>)
    requires Orderly(s)
    ensures IsOperated(s, i, r)
  {
    OperatedFound(s, i);
    FindByOp(s, i.providerId, i.externalId)
  }

  lemma OperatedFound(s: Store, i: Input)
    requires Orderly(s)
    ensures IsOperated(s, i, FindByOp(s, i.providerId, i.externalId))
  {
  }

  ghost function KeyedRow(s: Store, i: Input): (r: Option<TxRow>)
    requires Orderly(s)
    ensures IsKeyed(s, i, r)
  {
    KeyedFound(s, i);
    FindByKey(s, i.idempotencyKey)
  }

  lemma KeyedFound(s: Store, i: Input)
    requires Orderly(s)
    ensures IsKeyed(s, i, FindByKey(s, i.idempotencyKey))
  {
  }

  /** Some row has the request's key, with another payload. */
  ghost predicate KeyClashes(s: Store, i: Input) {
    exists id | id in s.txs ::
      s.txs[id].terms.idempotencyKey == i.idempotencyKey != "" && s.txs[id].terms.payloadHash != Some(CanonicalOf(i))
  }

  /** No row has the request's key, and some row has its operation, with another key or another payload. */
  ghost predicate OperationClashes(s: Store, i: Input) {
    && IsKeyed(s, i, None)
    && exists id | id in s.txs ::
         && s.txs[id].terms.providerId == i.providerId != "" && s.txs[id].terms.externalId == i.externalId
         && (s.txs[id].terms.idempotencyKey != i.idempotencyKey || s.txs[id].terms.payloadHash != Some(CanonicalOf(i)))
  }

  lemma InsertNeverConflicts(s: Store, i: Input, env: Env)
    requires ResolveByKey(s, i).None? && ResolveByOp(s, i).None?
    ensures Attempt(s, i, env) != Refused(ErrIdempotencyConflict)
  {
    hide ResolveByKey, ResolveByOp, NewExternal, AfterInsert, Taken;
    if i.walletId in s.wallets && NewExternal(env.txId, i, s.wallets[i.walletId], env.now).Ok? {
      InsertedNeverConflicts(PutTx(s, NewExternal(env.txId, i, s.wallets[i.walletId], env.now).value), s.wallets[i.walletId],
                             NewExternal(env.txId, i, s.wallets[i.walletId], env.now).value, env);
    } else if i.walletId in s.wallets {
      RefusalsAreTrue(env.txId, i, s.wallets[i.walletId], env.now);
    }
  }

  lemma InsertedNeverConflicts(v: Store, w: WalletRow, t: TxRow, env: Env)
    ensures AfterInsert(v, w, t, env) != Refused(ErrIdempotencyConflict)
  {
    hide FindByOp, HasProcessedReversal, ValidateReference;
  }

  /** A conflict is answered exactly for a key that has another payload, or for an operation that has another key. */
  lemma ConflictExactlyWhen(s: Store, i: Input, env: Env)
    requires Orderly(s)
    ensures Attempt(s, i, env) == Refused(ErrIdempotencyConflict) <==> Supported(i.kind) && (KeyClashes(s, i) || OperationClashes(s, i))
  {
    hide Attempt, CanonicalOf, Indexed, Rows, PayloadsRecorded, NothingUnderNull, FindByKey, FindByOp, Supported;
    var keyed, operated := KeyedRow(s, i), OperatedRow(s, i);
    if keyed.Some? || operated.Some? {
      RepeatDecided(s, i, env, keyed, operated);
      if keyed.Some? {
        OneKeyed(s, i, keyed.value);
      } else {
        OneOperated(s, i, operated.value);
      }
    } else {
      NothingToResolve(s, i);
      InsertNeverConflicts(s, i, env);
    }
  }

  lemma OneKeyed(s: Store, i: Input, t: TxRow)
    requires Orderly(s) && IsKeyed(s, i, Some(t))
    ensures KeyClashes(s, i) <==> t.terms.payloadHash != Some(CanonicalOf(i))
    ensures !OperationClashes(s, i)
  {
    hide CanonicalOf, Rows, PayloadsRecorded, OpsOk, OwnersOk;
    assert s.txs[t.id] == t;
    if KeyClashes(s, i) {
      var id :| id in s.txs && s.txs[id].terms.idempotencyKey == i.idempotencyKey != "" && s.txs[id].terms.payloadHash != Some(CanonicalOf(i));
      assert s.byKey[i.idempotencyKey] == id && s.byKey[i.idempotencyKey] == t.id;
    }
  }

  lemma OneOperated(s: Store, i: Input, t: TxRow)
    requires Orderly(s) && IsKeyed(s, i, None) && IsOperated(s, i, Some(t))
    ensures !KeyClashes(s, i)
    ensures OperationClashes(s, i) <==> t.terms.idempotencyKey != i.idempotencyKey || t.terms.payloadHash != Some(CanonicalOf(i))
  {
    hide CanonicalOf, Rows, PayloadsRecorded, KeysOk, OwnersOk;
    assert s.txs[t.id] == t;
    if OperationClashes(s, i) {
      var id :| id in s.txs && s.txs[id].terms.providerId == i.providerId != "" && s.txs[id].terms.externalId == i.externalId
                && (s.txs[id].terms.idempotencyKey != i.idempotencyKey || s.txs[id].terms.payloadHash != Some(CanonicalOf(i)));
      assert s.byOp[(i.providerId, i.externalId)] == id && s.byOp[(i.providerId, i.externalId)] == t.id;
    }
  }

  lemma NothingToResolve(s: Store, i: Input)
    requires Orderly(s) && IsKeyed(s, i, None) && IsOperated(s, i, None)
    ensures ResolveByKey(s, i).None? && ResolveByOp(s, i).None? && !KeyClashes(s, i) && !OperationClashes(s, i)
  {
    hide CanonicalOf, Rows, PayloadsRecorded, FindByKey, FindByOp, Indexed;
    if i.idempotencyKey != "" {
      KeyedIsFound(s, i, None);
    }
    OperatedIsFound(s, i, None);
  }

  // ---------------------------------------------------------------- the rest of the table

  /** What a new request comes to that is not admissible: refused, for a true fault, and nothing is written. */
  lemma InadmissibleDecided(s: Store, i: Input, env: Env)
    requires Orderly(s) && Endings.Fresh(s, env) && IsKeyed(s, i, None) && IsOperated(s, i, None)
    ensures var o := Attempt(s, i, env);
      if !Supported(i.kind) then o == Refused(ErrUnsupportedKind)
      else if i.walletId !in s.wallets then o == Refused(ErrNotFound)
      else if s.wallets[i.walletId].playerId != i.playerId then o == Refused(ErrWalletPlayerMismatch)
      else !TermsOk(Asked(i, s.wallets[i.walletId], env).terms) ==> o.Refused? && Blames(o.error, env.txId, i, s.wallets[i.walletId])
  {
    hide NewExternal, ResolveByKey, ResolveByOp, AfterInsert, Taken, TermsOk, Orderly, Blames;
    NothingToResolve(s, i);
    if i.walletId in s.wallets {
      var w := s.wallets[i.walletId];
      ExternalExactlyWhen(env.txId, i, w, env.now);
      RefusalsAreTrue(env.txId, i, w, env.now);
    }
  }

  predicate RejectedWith(o: Outcome, code: FailureCode) {
    o.Committed? && o.writes.tx.Some? && o.writes.tx.value.status == Rejected && o.writes.tx.value.failureCode == code
  }

  lemma CarriedCode(o: Outcome, v: Verdict, t: TxRow, ref: Option<TxRow>, w: WalletRow, env: Env)
    requires Carries(o, v, t, ref, w, env)
    ensures forall code :: RejectedWith(o, code) <==> v == Rejects(code)
  {
    hide ReferenceRetryBackoff;
  }

  /** A processed reference is decided on its fields: a new request of the wallet's currency, and a waiting row alike, are
      rejected as a mismatch exactly when one of the five fields differs, and as not processable exactly when they agree
      and the kinds do not fit; otherwise they go on to the reversals and the balance. */
  lemma ProcessedReferenceDecided(s: Store, c: Atomic.Call, env: Env, t: Terms, ref: TxRow)
    requires Indexed(s) && Rows(s) && Endings.Fresh(s, env) && IsNamed(s, t, Some(ref)) && ref.status == Processed
    requires t.referenceExternalId != ""
    requires match c
             case CallAttempt(i) =>
               && IsAdmissible(s, i, env) && t == Asked(i, s.wallets[i.walletId], env).terms
               && s.wallets[i.walletId].balance.currency == i.money.currency
             case CallResume(id) => id in s.txs && s.txs[id].status == PendingReference && s.txs[id].terms == t
             case _ => false
    ensures RejectedWith(Atomic.Run(s, c, env), ReferenceMismatch) <==> !SameDeal(t, ref.terms)
    ensures RejectedWith(Atomic.Run(s, c, env), ReferenceNotProcessable) <==> SameDeal(t, ref.terms) && !MayReferTo(t.kind, ref.terms.kind)
  {
    hide Attempt, Resume, Carries, IsNamed, IsAdmissible, IsReversed, SameDeal, MayReferTo, Indexed, Rows, RejectedWith, Endings.Fresh, TermsOk;
    match c {
      case CallAttempt(i) =>
        AdmissibleWallet(s, i, env);
        ArrivalDecided(s, i, env, Some(ref));
        var w, row := s.wallets[i.walletId], Asked(i, s.wallets[i.walletId], env);
        CarriedCode(Attempt(s, i, env), OnArrival(s, t, Some(ref), w), row, Some(ref), w, env);
      case CallResume(id) =>
        FreshEntry(s, env);
        ResumeDecided(s, id, env, Some(ref));
        var row := s.txs[id];
        var w := s.wallets[row.terms.walletId];
        CarriedCode(Resume(s, id, env), OnResume(s, t, Some(ref), w), row, Some(ref), w, env);
      case _ =>
    }
  }

  lemma AdmissibleWallet(s: Store, i: Input, env: Env)
    requires IsAdmissible(s, i, env)
    ensures i.walletId in s.wallets
  {
  }

  lemma FreshEntry(s: Store, env: Env)
    requires Endings.Fresh(s, env)
    ensures env.entryId != ""
  {
  }

  /** What opening a wallet comes to. */
  lemma OpeningDecided(s: Store, playerId: Id, balance: Money, env: Env)
    requires Endings.Fresh(s, env)
    ensures var o := Open(s, playerId, balance, env);
      var w := WalletRow(env.walletId, playerId, balance, 1, env.now, env.now);
      if playerId == "" then o == Refused(ErrEmptyPlayerID)
      else if balance.minorUnits < 0 then o == Refused(ErrNegativeInitial)
      else if balance.currency == "" then o == Refused(ErrInvalidCurrency)
      else if (playerId, balance.currency) in s.owners then o == Refused(ErrWalletAlreadyExists)
      else
        && o.Committed? && o.writes.wallet == Some(w) && o.writes.inbox == None
        && if balance.minorUnits == 0 then o.writes.tx == None && o.writes.entry == None && o.writes.events == []
           else
             && o.writes.tx == Some(TxRow(env.txId, Terms(Opening, env.walletId, playerId, balance, "", "", "", None, "", "", "", env.now),
                                          Processed, "", NoCode, None, 0, None, env.now))
             && o.writes.entry == Some(Entry(env.entryId, env.walletId, env.txId, Credit, balance, Money(0, balance.currency), balance, env.now))
             && Says(o.writes, o.out, env)
  {
    hide Says;
    OpenSays(s, playerId, balance, env);
  }
}
