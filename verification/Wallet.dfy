/** The wallet aggregate: a non-negative balance, and a version that counts balance changes. */
module Wallet {
  import opened Wrappers
  import opened Money
  import Int64

  type Id = string
  type Time = int

  /** What the wallets table holds for one wallet. */
  datatype WalletRow = WalletRow(
    id: Id, playerId: Id, balance: Money, version: nat, createdAt: Time, updatedAt: Time)

  function Opened(id: Id, playerId: Id, initialBalance: Money, now: Time): (r: Result<WalletRow>)
    ensures r.Ok? <==> id != "" && playerId != "" && initialBalance.minorUnits >= 0
    ensures r.Ok? ==> r.value.balance == initialBalance && !r.value.balance.IsNegative() && r.value.version == 1
    ensures r == Err(ErrNegativeInitial) ==> initialBalance.minorUnits < 0
  {
    if id == "" then Err(ErrEmptyID)
    else if playerId == "" then Err(ErrEmptyPlayerID)
    else if initialBalance.IsNegative() then Err(ErrNegativeInitial)
    else Ok(WalletRow(id, playerId, initialBalance, 1, now, now))
  }

  /** A debit goes through exactly when the amount is positive, in the wallet's currency and covered. */
  function Debited(w: WalletRow, amount: Money, now: Time): (r: Result<WalletRow>)
    ensures r.Ok? <==> 0 < amount.minorUnits <= w.balance.minorUnits && amount.currency == w.balance.currency != ""
    ensures r.Ok? ==> r.value.balance.minorUnits + amount.minorUnits == w.balance.minorUnits
    ensures r.Ok? ==> r.value == w.(balance := r.value.balance, version := w.version + 1, updatedAt := now)
    ensures r.Ok? ==> r.value.balance.currency == w.balance.currency && !r.value.balance.IsNegative()
    ensures r == Err(ErrInsufficientBalance) ==> w.balance.minorUnits < amount.minorUnits
  {
    if amount.IsNegative() || amount.IsZero() then Err(ErrAmountMustBePositive)
    else if amount.currency != w.balance.currency then Err(ErrCurrencyMismatch)
    else
      match Sub(w.balance, amount)
      case Err(e) => Err(e)
      case Ok(newBalance) =>
        if newBalance.IsNegative() then Err(ErrInsufficientBalance)
        else Ok(w.(balance := newBalance, version := w.version + 1, updatedAt := now))
  }

  /** A credit goes through exactly when the amount is positive, in the wallet's currency and does not overflow. */
  function Credited(w: WalletRow, amount: Money, now: Time): (r: Result<WalletRow>)
    ensures r.Ok? <==>
      amount.minorUnits > 0 && amount.currency == w.balance.currency != "" && Int64.Fits(w.balance.minorUnits + amount.minorUnits)
    ensures r.Ok? ==> r.value.balance.minorUnits == w.balance.minorUnits + amount.minorUnits
    ensures r.Ok? ==> r.value == w.(balance := r.value.balance, version := w.version + 1, updatedAt := now)
    ensures r.Ok? ==> r.value.balance.currency == w.balance.currency
  {
    if amount.IsNegative() || amount.IsZero() then Err(ErrAmountMustBePositive)
    else if amount.currency != w.balance.currency then Err(ErrCurrencyMismatch)
    else
      match Add(w.balance, amount)
      case Err(e) => Err(e)
      case Ok(newBalance) => Ok(w.(balance := newBalance, version := w.version + 1, updatedAt := now))
  }

  class Wallet {
    const id: Id
    const playerId: Id
    var balance: Money
    var version: nat
    const createdAt: Time
    var updatedAt: Time

    function Row(): WalletRow
      reads this
    {
      WalletRow(id, playerId, balance, version, createdAt, updatedAt)
    }

    constructor Rehydrate(row: WalletRow)
      ensures Row() == row
    {
      id, playerId, balance, version := row.id, row.playerId, row.balance, row.version;
      createdAt, updatedAt := row.createdAt, row.updatedAt;
    }

    /** On any error the wallet is exactly as it was. */
    method Debit(amount: Money, now: Time) returns (err: Option<Error>)
      modifies this
      ensures match Debited(old(Row()), amount, now)
              case Ok(w) => err == None && Row() == w
              case Err(e) => err == Some(e) && Row() == old(Row())
    {
      if amount.IsNegative() || amount.IsZero() {
        return Some(ErrAmountMustBePositive);
      }
      if amount.currency != balance.currency {
        return Some(ErrCurrencyMismatch);
      }
      var newBalance := Sub(balance, amount);
      if newBalance.Err? {
        return Some(newBalance.error);
      }
      if newBalance.value.IsNegative() {
        return Some(ErrInsufficientBalance);
      }
      balance := newBalance.value;
      version := version + 1;
      updatedAt := now;
      return None;
    }

    method Credit(amount: Money, now: Time) returns (err: Option<Error>)
      modifies this
      ensures match Credited(old(Row()), amount, now)
              case Ok(w) => err == None && Row() == w
              case Err(e) => err == Some(e) && Row() == old(Row())
    {
      if amount.IsNegative() || amount.IsZero() {
        return Some(ErrAmountMustBePositive);
      }
      if amount.currency != balance.currency {
        return Some(ErrCurrencyMismatch);
      }
      var newBalance := Add(balance, amount);
      if newBalance.Err? {
        return Some(newBalance.error);
      }
      balance := newBalance.value;
      version := version + 1;
      updatedAt := now;
      return None;
    }
  }
}
