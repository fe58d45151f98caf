/** The use cases as functions of one committed state: the outcome when nothing runs in between. */
module Process {
  import opened Wrappers
  import opened Money
  import opened Wallet
  import opened WagerTx
  import opened Ledger
  import opened Store

  /** What the environment supplies to one attempt: fresh identifiers and the clock. */
  datatype Env = Env(txId: Id, walletId: Id, entryId: Id, event1: Id, event2: Id, now: Time)

  datatype Output = Output(transactionId: Id, status: Status, balance: Money, failureCode: FailureCode, replay: bool)

  datatype Outcome =
    | Replayed(out: Output)
    | Committed(writes: Writes, out: Output)
    | Unchanged
    | Refused(error: Error)

  // ---------------------------------------------------------------- shared endings

  function FreshOutput(t: TxRow, balance: Money): Output {
    Output(t.id, t.status, balance, t.failureCode, false)
  }

  function EventOf(id: Id, t: TxRow, now: Time, data: EventData): Event {
    Event(id, t.terms.walletId, t.id, now, data)
  }

  function ProcessedEvent(id: Id, t: TxRow, now: Time): Event {
    EventOf(id, t, now, TransactionProcessed(t.id, t.terms.kind, t.terms.providerId, t.terms.externalId, t.terms.money))
  }

  function BalanceEvent(id: Id, t: TxRow, e: Entry, w: WalletRow, now: Time): Event {
    EventOf(id, t, now, WalletBalanceChanged(t.id, e.direction, e.amount, e.balanceBefore, e.balanceAfter, w.version))
  }

  function Reject(t: TxRow, w: WalletRow, code: FailureCode, env: Env): Outcome {
    match MarkedRejected(t, code, w.balance, env.now)
    case Err(e) => Refused(e)
    case Ok(t') =>
      Committed(Writes(None, Some(t'), None, [EventOf(env.event1, t', env.now, TransactionRejected(t'.id, t'.terms.kind, code))], None),
                FreshOutput(t', w.balance))
  }

  function Park(t: TxRow, w: WalletRow, env: Env): Outcome {
    match MarkedPendingReference(t, env.now)
    case Err(e) => Refused(e)
    case Ok(t') =>
      Committed(Writes(None, Some(t'), None,
                       [EventOf(env.event1, t', env.now, TransactionPendingReference(t'.id, t'.terms.referenceExternalId))], None),
                FreshOutput(t', w.balance))
  }

  /** A LOSS: processed without a movement. */
  function Note(t: TxRow, w: WalletRow, env: Env): Outcome {
    match MarkedProcessed(t, w.balance, env.now)
    case Err(e) => Refused(e)
    case Ok(t') =>
      Committed(Writes(None, Some(t'), None, [ProcessedEvent(env.event1, t', env.now)], None), FreshOutput(t', w.balance))
  }

  /** The writes that follow a successful save of the wallet: entry, transaction row and two events. */
  function Settle(t: TxRow, w: WalletRow, w': WalletRow, direction: Direction, env: Env): Outcome {
    match NewEntry(env.entryId, w.id, t.id, direction, t.terms.money, w.balance, w'.balance, env.now)
    case Err(e) => Refused(e)
    case Ok(entry) =>
      match MarkedProcessed(t, w'.balance, env.now)
      case Err(e) => Refused(e)
      case Ok(t') =>
        Committed(Writes(Some(w'), Some(t'), Some(entry),
                         [ProcessedEvent(env.event1, t', env.now), BalanceEvent(env.event2, t', entry, w', env.now)], None),
                  FreshOutput(t', w'.balance))
  }

  // ---------------------------------------------------------------- decisions

  function ValidateReference(t: Terms, ref: Terms): FailureCode {
    if t.providerId != ref.providerId || t.playerId != ref.playerId || t.walletId != ref.walletId
       || t.roundId != ref.roundId || t.money != ref.money
    then ReferenceMismatch
    else if (t.kind == Win || t.kind == Refund) && ref.kind != Bet then ReferenceNotProcessable
    else if t.kind == Rollback && ref.kind != Bet && ref.kind != Win && ref.kind != Refund then ReferenceNotProcessable
    else NoCode
  }

  /** The direction in which a kind moves the balance; a rollback undoes what its reference did. */
  function DirectionOf(kind: Kind, refKind: Option<Kind>): Option<Direction> {
    match kind
    case Bet => Some(Debit)
    case Win => Some(Credit)
    case Refund => Some(Credit)
    case Rollback => if refKind == Some(Win) || refKind == Some(Refund) then Some(Debit) else Some(Credit)
    case _ => None
  }

  function Moved(w: WalletRow, direction: Direction, amount: Money, now: Time): Result<WalletRow> {
    if direction == Debit then Debited(w, amount, now) else Credited(w, amount, now)
  }

  function ShortfallCode(kind: Kind): FailureCode {
    if kind == Bet then InsufficientBalance else ReversalInsufficientBalance
  }

  /** Movement and settlement of a transaction whose reference, if it has one, is resolved. */
  function Finish(w: WalletRow, t: TxRow, ref: Option<TxRow>, env: Env): Outcome {
    match DirectionOf(t.terms.kind, if ref.Some? then Some(ref.value.terms.kind) else None)
    case None => if t.terms.kind == Loss then Note(t, w, env) else Refused(ErrUnsupportedKind)
    case Some(direction) =>
      match Moved(w, direction, t.terms.money, env.now)
      case Err(e) =>
        if e == ErrInsufficientBalance then Reject(t, w, ShortfallCode(t.terms.kind), env) else Refused(e)
      case Ok(w') => Settle(t, w, w', direction, env)
  }

  /** From a processed reference on: validation, the one-reversal rule, resolution, movement. */
  function WithReference(s: Store, w: WalletRow, t: TxRow, ref: TxRow, env: Env): Outcome {
    var code := ValidateReference(t.terms, ref.terms);
    if code != NoCode then Reject(t, w, code, env)
    else if (t.terms.kind == Refund || t.terms.kind == Rollback) && HasProcessedReversal(s, ref.id)
    then Reject(t, w, ReferenceAlreadyReversed, env)
    else
      match ReferenceResolved(t, ref.id, env.now)
      case Err(e) => Refused(e)
      case Ok(t') => Finish(w, t', Some(ref), env)
  }

  /** The part of an attempt after its row is inserted; `s` contains that row. */
  function AfterInsert(s: Store, w: WalletRow, t: TxRow, env: Env): Outcome {
    if w.balance.currency != t.terms.money.currency then Reject(t, w, CurrencyMismatch, env)
    else if t.terms.referenceExternalId == "" then Finish(w, t, None, env)
    else
      match FindByOp(s, t.terms.providerId, t.terms.referenceExternalId)
      case None => Park(t, w, env)
      case Some(ref) =>
        if ref.status != Processed then
          if IsTerminal(ref.status) then Reject(t, w, ReferenceNotProcessable, env) else Park(t, w, env)
        else WithReference(s, w, t, ref, env)
  }

  // ---------------------------------------------------------------- attempt

  function Replay(s: Store, t: TxRow): Outcome {
    if t.financialResult.Some? then Replayed(Output(t.id, t.status, t.financialResult.value, t.failureCode, true))
    else if t.terms.walletId !in s.wallets then Refused(ErrNotFound)
    else Replayed(Output(t.id, t.status, s.wallets[t.terms.walletId].balance, t.failureCode, true))
  }

  function ResolveByKey(s: Store, i: Input): Option<Outcome> {
    if i.idempotencyKey == "" then None
    else
      match FindByKey(s, i.idempotencyKey)
      case None => None
      case Some(t) =>
        if t.terms.payloadHash != Some(CanonicalOf(i)) then Some(Refused(ErrIdempotencyConflict)) else Some(Replay(s, t))
  }

  function ResolveByOp(s: Store, i: Input): Option<Outcome> {
    match FindByOp(s, i.providerId, i.externalId)
    case None => None
    case Some(t) =>
      if t.terms.idempotencyKey != i.idempotencyKey || t.terms.payloadHash != Some(CanonicalOf(i))
      then Some(Refused(ErrIdempotencyConflict))
      else Some(Replay(s, t))
  }

  predicate Supported(kind: Kind) {
    kind == Bet || kind == Win || kind == Loss || kind == Refund || kind == Rollback
  }

  /** How often Execute attempts a request that loses races or meets taken keys. */
  const MAX_RETRIES := 5

  function Attempt(s: Store, i: Input, env: Env): Outcome {
    if !Supported(i.kind) then Refused(ErrUnsupportedKind)
    else if ResolveByKey(s, i).Some? then ResolveByKey(s, i).value
    else if ResolveByOp(s, i).Some? then ResolveByOp(s, i).value
    else if i.walletId !in s.wallets then Refused(ErrNotFound)
    else
      var w := s.wallets[i.walletId];
      if w.playerId != i.playerId then Refused(ErrWalletPlayerMismatch)
      else
        match NewExternal(env.txId, i, w, env.now)
        case Err(e) => Refused(e)
        case Ok(t) =>
          if Taken(s, t) then Refused(ErrAlreadyExists)
          else AfterInsert(PutTx(s, t), w, t, env)
  }

  // ---------------------------------------------------------------- pending references

  const SECOND: int := 1_000_000_000

  function DoubledSeconds(n: nat): nat {
    if n == 0 then SECOND else 2 * DoubledSeconds(n - 1)
  }

  function ReferenceRetryBackoff(attempts: int): int {
    var maxBackoff := 30 * SECOND;
    if attempts < 1 then SECOND
    else if attempts > 5 then maxBackoff
    else
      var backoff := DoubledSeconds(attempts);
      if backoff > maxBackoff then maxBackoff else backoff
  }

  function Resume(s: Store, id: Id, env: Env): Outcome {
    if id !in s.txs then Refused(ErrNotFound)
    else
      var t := s.txs[id];
      if t.status != PendingReference then Unchanged
      else if t.terms.walletId !in s.wallets then Refused(ErrNotFound)
      else AfterWait(s, s.wallets[t.terms.walletId], t, env)
  }

  function AfterWait(s: Store, w: WalletRow, t: TxRow, env: Env): Outcome {
    match FindByOp(s, t.terms.providerId, t.terms.referenceExternalId)
    case None => Wait(t, env)
    case Some(ref) => if ref.status != Processed then Wait(t, env) else WithReference(s, w, t, ref, env)
  }

  /** The workers' calls return an error or nothing: where no balance is recorded, this stands for the missing answer. */
  function Unanswered(t: TxRow): Output {
    FreshOutput(t, t.terms.money)
  }

  function Wait(t: TxRow, env: Env): Outcome {
    match RetryRecorded(t, env.now + ReferenceRetryBackoff(t.retryAttempts + 1), env.now)
    case Err(e) => Refused(e)
    case Ok(t') => Committed(Writes(None, Some(t'), None, [], None), Unanswered(t'))
  }

  function Expire(s: Store, id: Id, env: Env): Outcome {
    if id !in s.txs then Refused(ErrNotFound)
    else
      var t := s.txs[id];
      if t.status != PendingReference then Unchanged
      else
        match MarkedFailed(t, ReferenceExpired, env.now)
        case Err(e) => Refused(e)
        case Ok(t') =>
          Committed(Writes(None, Some(t'), None,
                           [EventOf(env.event1, t', env.now,
                                    TransactionExpired(t'.id, t'.terms.referenceExternalId, ReferenceExpired))], None),
                    Unanswered(t'))
  }

  // ---------------------------------------------------------------- opening

  function Open(s: Store, playerId: Id, initialBalance: Money, env: Env): Outcome {
    match Opened(env.walletId, playerId, initialBalance, env.now)
    case Err(e) => Refused(e)
    case Ok(w) =>
      if initialBalance.currency == "" then Refused(ErrInvalidCurrency)   // the table's currency format
      else if w.id in s.wallets || (playerId, initialBalance.currency) in s.owners then Refused(ErrWalletAlreadyExists)
      else OpenEntries(w, env)
  }

  function OpenEntries(w: WalletRow, env: Env): Outcome {
    if w.balance.IsZero() then
      Committed(Writes(Some(w), None, None, [], None), Output("", Processed, w.balance, NoCode, false))
    else
      match NewOpening(env.txId, w.id, w.playerId, w.balance, env.now)
      case Err(e) => Refused(e)
      case Ok(t) =>
        match NewEntry(env.entryId, w.id, t.id, Credit, w.balance, Money(0, w.balance.currency), w.balance, env.now)
        case Err(e) => Refused(e)
        case Ok(entry) =>
          Committed(Writes(Some(w), Some(t), Some(entry),
                           [ProcessedEvent(env.event1, t, env.now), BalanceEvent(env.event2, t, entry, w, env.now)], None),
                    FreshOutput(t, w.balance))
  }
}
