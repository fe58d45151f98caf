/** Wager transactions: what a provider asks for, the rules per kind, and the status machine. */
module WagerTx {
  import opened Wrappers
  import opened Money
  import opened Wallet

  datatype Kind = Bet | Win | Loss | Refund | Rollback | Opening | Other(name: string)

  datatype Status = Pending | PendingReference | Processed | Rejected | Failed

  datatype FailureCode =
    | NoCode
    | InsufficientBalance | CurrencyMismatch
    | ReferenceMismatch | ReferenceNotProcessable | ReferenceAlreadyReversed
    | ReversalInsufficientBalance | ReferenceExpired

  /** The fields the payload hash is computed from. The hash is taken to be injective, so the fields
      themselves stand for it. */
  datatype Canonical = Canonical(
    providerId: string, externalId: string, playerId: Id, walletId: Id, roundId: string, gameId: string,
    kind: Kind, amount: string, currency: string, referenceExternalId: string)

  /** The columns of a transaction that no update ever writes. Empty strings stand for NULL. */
  datatype Terms = Terms(
    kind: Kind, walletId: Id, playerId: Id, money: Money,
    providerId: string, externalId: string, idempotencyKey: string, payloadHash: Option<Canonical>,
    roundId: string, gameId: string, referenceExternalId: string, createdAt: Time)

  datatype TxRow = TxRow(
    id: Id, terms: Terms, status: Status,
    resolvedReferenceId: Id, failureCode: FailureCode, financialResult: Option<Money>,
    retryAttempts: nat, nextRetryAt: Option<Time>, updatedAt: Time)

  /** A request as it arrives over HTTP or SQS. */
  datatype Input = Input(
    providerId: string, externalId: string, idempotencyKey: string, playerId: Id, walletId: Id,
    roundId: string, gameId: string, kind: Kind, money: Money, referenceExternalId: string)

  function CanonicalOf(i: Input): Canonical {
    Canonical(i.providerId, i.externalId, i.playerId, i.walletId, i.roundId, i.gameId, i.kind,
              DecimalString(i.money.minorUnits), i.money.currency, i.referenceExternalId)
  }

  /** Two requests have the same payload hash exactly when they agree on everything but the key. */
  lemma CanonicalIdentifiesRequest(a: Input, b: Input)
    ensures CanonicalOf(a) == CanonicalOf(b) <==> a == b.(idempotencyKey := a.idempotencyKey)
  {
    PrintDenotes(a.money.minorUnits);
    PrintDenotes(b.money.minorUnits);
    if CanonicalOf(a) == CanonicalOf(b) {
      DenotesFunctional(DecimalString(a.money.minorUnits), a.money.minorUnits, b.money.minorUnits);
    }
  }

  // ---------------------------------------------------------------- construction

  datatype Rules = Rules(amountMustBeZero: bool, referenceRequired: bool, referenceAllowed: bool)

  function RulesFor(kind: Kind): Option<Rules> {
    match kind
    case Bet => Some(Rules(false, false, false))
    case Win => Some(Rules(false, false, true))
    case Loss => Some(Rules(true, false, false))
    case Refund => Some(Rules(false, true, true))
    case Rollback => Some(Rules(false, true, true))
    case _ => None
  }

  /** What an input asks for, as the columns of a transaction on the wallet. */
  function TermsFor(i: Input, w: WalletRow, now: Time): Terms {
    Terms(i.kind, w.id, w.playerId, i.money, i.providerId, i.externalId, i.idempotencyKey,
          Some(CanonicalOf(i)), i.roundId, i.gameId, i.referenceExternalId, now)
  }

  /** What each refusal says is indeed wrong with the request. */
  ghost predicate Blames(e: Error, id: Id, i: Input, w: WalletRow) {
    match e
    case ErrEmptyID => id == ""
    case ErrOpeningNotExternal => i.kind == Opening
    case ErrInvalidKind => i.kind.Other?
    case ErrEmptyProviderID => i.providerId == ""
    case ErrEmptyExternalID => i.externalId == ""
    case ErrEmptyIdempotencyKey => i.idempotencyKey == ""
    case ErrEmptyWalletID => w.id == ""
    case ErrEmptyPlayerID => w.playerId == ""
    case ErrEmptyRoundID => i.roundId == ""
    case ErrEmptyGameID => i.gameId == ""
    case ErrEmptyCurrency => i.money.currency == ""
    case ErrLossAmountMustBeZero => i.kind == Loss && i.money.minorUnits != 0
    case ErrAmountMustBePositive => i.kind != Loss && i.money.minorUnits <= 0
    case ErrReferenceRequired => (i.kind == Refund || i.kind == Rollback) && i.referenceExternalId == ""
    case ErrReferenceNotAllowed => (i.kind == Bet || i.kind == Loss) && i.referenceExternalId != ""
    case _ => false
  }

  function NewExternal(id: Id, i: Input, w: WalletRow, now: Time): (r: Result<TxRow>)
    ensures r.Ok? ==>
      && r.value.id == id && r.value.status == Pending
      && r.value.terms.walletId == w.id && r.value.terms.playerId == w.playerId
      && r.value.resolvedReferenceId == "" && r.value.failureCode == NoCode && r.value.financialResult == None
      && TermsOk(r.value.terms) && r.value.terms.kind != Opening
  {
    if id == "" then Err(ErrEmptyID)
    else if i.kind == Opening then Err(ErrOpeningNotExternal)
    else
      match RulesFor(i.kind)
      case None => Err(ErrInvalidKind)
      case Some(rules) =>
        if i.providerId == "" then Err(ErrEmptyProviderID)
        else if i.externalId == "" then Err(ErrEmptyExternalID)
        else if i.idempotencyKey == "" then Err(ErrEmptyIdempotencyKey)
        else if w.id == "" then Err(ErrEmptyWalletID)
        else if w.playerId == "" then Err(ErrEmptyPlayerID)
        else if i.roundId == "" then Err(ErrEmptyRoundID)
        else if i.gameId == "" then Err(ErrEmptyGameID)
        else if i.money.currency == "" then Err(ErrEmptyCurrency)
        else if rules.amountMustBeZero && !i.money.IsZero() then Err(ErrLossAmountMustBeZero)
        else if !rules.amountMustBeZero && (i.money.IsZero() || i.money.IsNegative()) then Err(ErrAmountMustBePositive)
        else if rules.referenceRequired && i.referenceExternalId == "" then Err(ErrReferenceRequired)
        else if !rules.referenceAllowed && i.referenceExternalId != "" then Err(ErrReferenceNotAllowed)
        else
          Ok(TxRow(id,
                   TermsFor(i, w, now),
                   Pending, "", NoCode, None, 0, None, now))
  }

  /** The constructor accepts exactly the requests whose row the table's checks accept. */
  lemma ExternalExactlyWhen(id: Id, i: Input, w: WalletRow, now: Time)
    ensures NewExternal(id, i, w, now).Ok? <==> id != "" && i.kind != Opening && TermsOk(TermsFor(i, w, now))
    ensures NewExternal(id, i, w, now).Ok? ==> NewExternal(id, i, w, now).value.terms == TermsFor(i, w, now)
  {
    hide CanonicalOf;
  }

  /** A refusal names a true fault of the request. */
  lemma RefusalsAreTrue(id: Id, i: Input, w: WalletRow, now: Time)
    ensures NewExternal(id, i, w, now).Err? ==> Blames(NewExternal(id, i, w, now).error, id, i, w)
  {
    hide CanonicalOf, TermsOk;
  }

  function NewOpening(id: Id, walletId: Id, playerId: Id, amount: Money, now: Time): (r: Result<TxRow>)
    ensures r.Ok? <==> id != "" && walletId != "" && playerId != "" && amount.minorUnits > 0
    ensures r.Ok? ==> (TermsOk(r.value.terms) <==> amount.currency != "")
  {
    if id == "" then Err(ErrEmptyID)
    else if walletId == "" then Err(ErrEmptyWalletID)
    else if playerId == "" then Err(ErrEmptyPlayerID)
    else if amount.IsZero() || amount.IsNegative() then Err(ErrAmountMustBePositive)
    else
      Ok(TxRow(id, Terms(Opening, walletId, playerId, amount, "", "", "", None, "", "", "", now),
               Processed, "", NoCode, None, 0, None, now))
  }

  /** The table constraints by kind: which amounts, identifying fields and references a row may carry. */
  predicate TermsOk(t: Terms) {
    && !t.kind.Other?
    && t.walletId != "" && t.playerId != "" && t.money.currency != ""
    && (t.kind == Loss ==> t.money.minorUnits == 0)
    && (t.kind != Loss ==> t.money.minorUnits > 0)
    && (t.kind == Opening ==>
          t.providerId == "" && t.externalId == "" && t.idempotencyKey == "" && t.payloadHash == None
          && t.roundId == "" && t.gameId == "" && t.referenceExternalId == "")
    && (t.kind != Opening ==>
          t.providerId != "" && t.externalId != "" && t.idempotencyKey != "" && t.payloadHash.Some?
          && t.roundId != "" && t.gameId != "")
    && (t.kind == Refund || t.kind == Rollback ==> t.referenceExternalId != "")
    && (t.kind == Bet || t.kind == Loss ==> t.referenceExternalId == "")
  }

  // ---------------------------------------------------------------- status machine

  predicate IsTerminal(s: Status) {
    s == Processed || s == Rejected || s == Failed
  }

  predicate IsOpen(s: Status) {
    s == Pending || s == PendingReference
  }

  function MarkedPendingReference(t: TxRow, now: Time): Result<TxRow> {
    if t.status != Pending then Err(ErrInvalidTransition)
    else Ok(t.(status := PendingReference, updatedAt := now))
  }

  function MarkedProcessed(t: TxRow, financialResult: Money, now: Time): Result<TxRow> {
    if !IsOpen(t.status) then Err(ErrInvalidTransition)
    else Ok(t.(status := Processed, financialResult := Some(financialResult), updatedAt := now))
  }

  function MarkedRejected(t: TxRow, code: FailureCode, financialResult: Money, now: Time): Result<TxRow> {
    if code == NoCode then Err(ErrEmptyFailureCode)
    else if !IsOpen(t.status) then Err(ErrInvalidTransition)
    else Ok(t.(status := Rejected, failureCode := code, financialResult := Some(financialResult), updatedAt := now))
  }

  function MarkedFailed(t: TxRow, code: FailureCode, now: Time): Result<TxRow> {
    if code == NoCode then Err(ErrEmptyFailureCode)
    else if !IsOpen(t.status) then Err(ErrInvalidTransition)
    else Ok(t.(status := Failed, failureCode := code, updatedAt := now))
  }

  function ReferenceResolved(t: TxRow, referenceId: Id, now: Time): Result<TxRow> {
    if referenceId == "" then Err(ErrEmptyID)
    else if IsTerminal(t.status) then Err(ErrInvalidTransition)
    else Ok(t.(resolvedReferenceId := referenceId, retryAttempts := 0, nextRetryAt := None, updatedAt := now))
  }

  function RetryRecorded(t: TxRow, nextRetryAt: Time, now: Time): Result<TxRow> {
    if t.status != PendingReference then Err(ErrInvalidTransition)
    else Ok(t.(retryAttempts := t.retryAttempts + 1, nextRetryAt := Some(nextRetryAt), updatedAt := now))
  }

  /** The row after one call of any of the status methods that succeeded. */
  predicate Transition(t: TxRow, t': TxRow, now: Time) {
    || MarkedPendingReference(t, now) == Ok(t')
    || (t'.financialResult.Some? && MarkedProcessed(t, t'.financialResult.value, now) == Ok(t'))
    || (t'.financialResult.Some? && MarkedRejected(t, t'.failureCode, t'.financialResult.value, now) == Ok(t'))
    || MarkedFailed(t, t'.failureCode, now) == Ok(t')
    || ReferenceResolved(t, t'.resolvedReferenceId, now) == Ok(t')
    || (t'.nextRetryAt.Some? && RetryRecorded(t, t'.nextRetryAt.value, now) == Ok(t'))
  }

  predicate Transitions(ts: seq<TxRow>, now: Time) {
    forall i | 0 <= i < |ts| - 1 :: Transition(ts[i], ts[i + 1], now)
  }

  /** However the status methods are called, terms never change, a transaction that has left PENDING never returns to
      it, and a terminal one accepts no further call. */
  lemma {:induction false} StatusOnlyAdvances(ts: seq<TxRow>, now: Time)
    requires ts != [] && Transitions(ts, now)
    ensures var first, last := ts[0], ts[|ts| - 1];
      && last.id == first.id && last.terms == first.terms
      && (first.status != Pending ==> last.status != Pending)
      && (IsTerminal(first.status) ==> |ts| == 1)
  {
    if |ts| > 1 {
      StatusOnlyAdvances(ts[1..], now);
      assert Transition(ts[0], ts[1], now);
    }
  }

  class WagerTransaction {
    const id: Id
    const terms: Terms
    var status: Status
    var resolvedReferenceId: Id
    var failureCode: FailureCode
    var financialResult: Option<Money>
    var retryAttempts: nat
    var nextRetryAt: Option<Time>
    var updatedAt: Time

    function Row(): TxRow
      reads this
    {
      TxRow(id, terms, status, resolvedReferenceId, failureCode, financialResult, retryAttempts, nextRetryAt, updatedAt)
    }

    /** The method's effect is that of the row function: the new row on success, no change on an error. */
    ghost predicate Did(before: TxRow, r: Result<TxRow>, err: Option<Error>)
      reads this
    {
      match r
      case Ok(row) => err == None && Row() == row
      case Err(e) => err == Some(e) && Row() == before
    }

    constructor Rehydrate(row: TxRow)
      ensures Row() == row
    {
      id, terms, status, resolvedReferenceId := row.id, row.terms, row.status, row.resolvedReferenceId;
      failureCode, financialResult := row.failureCode, row.financialResult;
      retryAttempts, nextRetryAt, updatedAt := row.retryAttempts, row.nextRetryAt, row.updatedAt;
    }

    method MarkPendingReference(now: Time) returns (err: Option<Error>)
      modifies this
      ensures Did(old(Row()), MarkedPendingReference(old(Row()), now), err)
    {
      if status != Pending {
        return Some(ErrInvalidTransition);
      }
      status := PendingReference;
      updatedAt := now;
      return None;
    }

    method MarkProcessed(result: Money, now: Time) returns (err: Option<Error>)
      modifies this
      ensures Did(old(Row()), MarkedProcessed(old(Row()), result, now), err)
    {
      if status != Pending && status != PendingReference {
        return Some(ErrInvalidTransition);
      }
      status := Processed;
      financialResult := Some(result);
      updatedAt := now;
      return None;
    }

    method MarkRejectedWithResult(code: FailureCode, result: Money, now: Time) returns (err: Option<Error>)
      modifies this
      ensures Did(old(Row()), MarkedRejected(old(Row()), code, result, now), err)
    {
      if code == NoCode {
        return Some(ErrEmptyFailureCode);
      }
      if status != Pending && status != PendingReference {
        return Some(ErrInvalidTransition);
      }
      status := Rejected;
      failureCode := code;
      financialResult := Some(result);
      updatedAt := now;
      return None;
    }

    method MarkFailed(code: FailureCode, now: Time) returns (err: Option<Error>)
      modifies this
      ensures Did(old(Row()), MarkedFailed(old(Row()), code, now), err)
    {
      if code == NoCode {
        return Some(ErrEmptyFailureCode);
      }
      if status != Pending && status != PendingReference {
        return Some(ErrInvalidTransition);
      }
      status := Failed;
      failureCode := code;
      updatedAt := now;
      return None;
    }

    method ResolveReference(referenceId: Id, now: Time) returns (err: Option<Error>)
      modifies this
      ensures Did(old(Row()), ReferenceResolved(old(Row()), referenceId, now), err)
    {
      if referenceId == "" {
        return Some(ErrEmptyID);
      }
      if IsTerminal(status) {
        return Some(ErrInvalidTransition);
      }
      resolvedReferenceId := referenceId;
      retryAttempts := 0;
      nextRetryAt := None;
      updatedAt := now;
      return None;
    }

    method RecordReferenceRetryAttempt(next: Time, now: Time) returns (err: Option<Error>)
      modifies this
      ensures Did(old(Row()), RetryRecorded(old(Row()), next, now), err)
    {
      if status != PendingReference {
        return Some(ErrInvalidTransition);
      }
      retryAttempts := retryAttempts + 1;
      nextRetryAt := Some(next);
      updatedAt := now;
      return None;
    }
  }
}
