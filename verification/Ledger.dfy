/** Ledger entries and the events that announce what happened to a wallet. */
module Ledger {
  import opened Wrappers
  import opened Money
  import opened Wallet
  import opened WagerTx

  datatype Direction = Debit | Credit

  datatype Entry = Entry(
    id: Id, walletId: Id, transactionId: Id, direction: Direction, amount: Money,
    balanceBefore: Money, balanceAfter: Money, createdAt: Time)

  /** What an entry adds to its wallet's balance. */
  function Signed(direction: Direction, amount: Money): int {
    var units: int := amount.minorUnits;
    if direction == Credit then units else -units
  }

  /** An entry exists exactly for identified, positive, one-currency movements whose balances add up. */
  function NewEntry(id: Id, walletId: Id, transactionId: Id, direction: Direction, amount: Money,
                    balanceBefore: Money, balanceAfter: Money, createdAt: Time): (r: Result<Entry>)
    ensures r.Ok? <==>
      && id != "" && walletId != "" && transactionId != "" && amount.minorUnits > 0
      && amount.currency == balanceBefore.currency == balanceAfter.currency != ""
      && balanceAfter.minorUnits == balanceBefore.minorUnits + Signed(direction, amount)
    ensures r.Ok? ==> r.value == Entry(id, walletId, transactionId, direction, amount, balanceBefore, balanceAfter, createdAt)
  {
    if id == "" then Err(ErrEmptyID)
    else if walletId == "" then Err(ErrEmptyWalletID)
    else if transactionId == "" then Err(ErrEmptyTransactionID)
    else if amount.IsZero() || amount.IsNegative() then Err(ErrAmountMustBePositive)
    else if amount.currency != balanceBefore.currency || amount.currency != balanceAfter.currency then Err(ErrCurrencyMismatch)
    else
      match (if direction == Debit then Sub(balanceBefore, amount) else Add(balanceBefore, amount))
      case Err(e) => Err(e)
      case Ok(expectedAfter) =>
        if expectedAfter != balanceAfter then Err(ErrBalanceMismatch)
        else Ok(Entry(id, walletId, transactionId, direction, amount, balanceBefore, balanceAfter, createdAt))
  }

  datatype EventData =
    | TransactionProcessed(transactionId: Id, kind: Kind, providerId: string, externalId: string, money: Money)
    | TransactionRejected(transactionId: Id, kind: Kind, failureCode: FailureCode)
    | TransactionPendingReference(transactionId: Id, referenceExternalId: string)
    | TransactionExpired(transactionId: Id, referenceExternalId: string, failureCode: FailureCode)
    | WalletBalanceChanged(transactionId: Id, direction: Direction, money: Money,
                           balanceBefore: Money, balanceAfter: Money, walletVersion: nat)

  /** The aggregate of every event is its wallet. */
  datatype Event = Event(id: Id, walletId: Id, correlationId: Id, occurredAt: Time, data: EventData)
}
