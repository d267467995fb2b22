/**
 Wallets and immutable ledger entries (internal/domain/wallet.go, wallet_ledger_entry.go).
 Credit and Debit are given both as functions on values and as methods of the mutable
 object, proved to agree.
 */
module Wallets {
  import opened Basics
  import opened Money
  import opened Wagers

  datatype Wallet = Wallet(
    id: Uuid, playerId: Uuid, balance: Money, version: int, createdAt: Time, updatedAt: Time)

  const INITIAL_VERSION := 1

  function NewWallet(id: Uuid, playerId: Uuid, balance: Money, at: Time): Result<Wallet> {
    if id == NIL_UUID then Err(InvalidWalletId)
    else if playerId == NIL_UUID then Err(InvalidPlayerId)
    else if !balance.IsValid() || balance.IsNegative() then Err(InvalidMoney)
    else if at == ZERO_TIME then Err(InvalidTimestamp)
    else Ok(Wallet(id, playerId, balance, INITIAL_VERSION, at, at))
  }

  function ValidateMovement(w: Wallet, amount: Money, at: Time): Check {
    if !amount.IsValid() then Fail(InvalidMoney)
    else if !amount.IsPositive() then Fail(AmountMustBePositive)
    else if w.balance.currency != amount.currency then Fail(CurrencyMismatch)
    else if at == ZERO_TIME || at < w.updatedAt then Fail(InvalidTimestamp)
    else Pass
  }

  function ApplyBalance(w: Wallet, balance: Money, at: Time): Wallet {
    w.(balance := balance, version := w.version + 1, updatedAt := at)
  }

  function CreditWallet(w: Wallet, amount: Money, at: Time): Result<Wallet> {
    if ValidateMovement(w, amount, at).Fail? then Err(ValidateMovement(w, amount, at).error) else
      var balance :- w.balance.Add(amount);
      Ok(ApplyBalance(w, balance, at))
  }

  function DebitWallet(w: Wallet, amount: Money, at: Time): Result<Wallet> {
    if ValidateMovement(w, amount, at).Fail? then Err(ValidateMovement(w, amount, at).error) else
      var comparison :- w.balance.Compare(amount);
      if comparison < 0 then Err(InsufficientFunds) else
        var balance :- w.balance.Sub(amount);
        Ok(ApplyBalance(w, balance, at))
  }

  function Move(w: Wallet, direction: Direction, amount: Money, at: Time): Result<Wallet> {
    match direction
    case Debit => DebitWallet(w, amount, at)
    case Credit => CreditWallet(w, amount, at)
  }

  class WalletObject {
    const id: Uuid
    const playerId: Uuid
    const createdAt: Time
    var balance: Money
    var version: int
    var updatedAt: Time

    function View(): Wallet
      reads this
    {
      Wallet(id, playerId, balance, version, createdAt, updatedAt)
    }

    constructor (w: Wallet)
      ensures View() == w
    {
      id, playerId, createdAt := w.id, w.playerId, w.createdAt;
      balance, version, updatedAt := w.balance, w.version, w.updatedAt;
    }

    /** A refused credit changes nothing; an accepted one adds the amount and advances the version by one. */
    method Credit(amount: Money, at: Time) returns (err: Check)
      modifies this
      ensures match CreditWallet(old(View()), amount, at)
              case Ok(w) => err.Pass? && View() == w
              case Err(e) => err == Fail(e) && View() == old(View())
    {
      err := ValidateMovement(View(), amount, at);
      if err.Fail? { return; }
      var sum := balance.Add(amount);
      if sum.Err? { return Fail(sum.error); }
      balance, version, updatedAt := sum.value, version + 1, at;
      return Pass;
    }

    /** As Credit, except that a debit larger than the balance is refused. */
    method Debit(amount: Money, at: Time) returns (err: Check)
      modifies this
      ensures match DebitWallet(old(View()), amount, at)
              case Ok(w) => err.Pass? && View() == w
              case Err(e) => err == Fail(e) && View() == old(View())
    {
      err := ValidateMovement(View(), amount, at);
      if err.Fail? { return; }
      var comparison := balance.Compare(amount);
      if comparison.Err? { return Fail(comparison.error); }
      if comparison.value < 0 { return Fail(InsufficientFunds); }
      var difference := balance.Sub(amount);
      if difference.Err? { return Fail(difference.error); }
      balance, version, updatedAt := difference.value, version + 1, at;
      return Pass;
    }
  }

  // ----- ledger entries -----

  datatype Entry = Entry(
    id: Uuid, walletId: Uuid, transactionId: Uuid, direction: Direction,
    amount: Money, before: Money, after: Money, createdAt: Time)

  function ValidateLedgerBalance(direction: Direction, amount: Money, before: Money, after: Money): Check {
    var expected := match direction case Debit => before.Sub(amount) case Credit => before.Add(amount);
    if expected.Err? then Fail(expected.error)
    else if expected.value != after then Fail(InvalidFinancialResult)
    else Pass
  }

  function BuildEntry(
    id: Uuid, walletId: Uuid, transactionId: Uuid, direction: Direction,
    amount: Money, before: Money, after: Money, at: Time): Result<Entry>
  {
    if id == NIL_UUID then Err(InvalidLedgerEntry)
    else if walletId == NIL_UUID then Err(InvalidWalletId)
    else if transactionId == NIL_UUID then Err(InvalidTransactionId)
    else if !amount.IsValid() || !before.IsValid() || !after.IsValid() then Err(InvalidMoney)
    else if !amount.IsPositive() then Err(AmountMustBePositive)
    else if before.IsNegative() || after.IsNegative() then Err(InvalidFinancialResult)
    else if amount.currency != before.currency || amount.currency != after.currency then Err(CurrencyMismatch)
    else if at == ZERO_TIME then Err(InvalidTimestamp)
    else
      :- ValidateLedgerBalance(direction, amount, before, after);
      Ok(Entry(id, walletId, transactionId, direction, amount, before, after, at))
  }

  /** The entry's effect on the balance, in cents. */
  function Signed(direction: Direction, cents: int): int {
    match direction case Debit => -cents case Credit => cents
  }

  predicate HealthyWallet(w: Wallet) {
    && w.balance.IsValid() && w.balance.cents >= 0 && w.version >= INITIAL_VERSION
    && ZERO_TIME < w.createdAt <= w.updatedAt && w.id != NIL_UUID && w.playerId != NIL_UUID
  }

  /**
   Exactly when a movement of a healthy wallet is refused, and what it does otherwise: the
   balance changes by the signed amount and stays within range, the version advances by one.
   */
  lemma MoveExactly(w: Wallet, direction: Direction, amount: Money, at: Time)
    requires HealthyWallet(w) && amount.IsValid() && amount.IsPositive() && amount.currency == w.balance.currency
    requires ZERO_TIME < at && w.updatedAt <= at
    ensures var sum := w.balance.cents + Signed(direction, amount.cents);
            Move(w, direction, amount, at) ==
            if sum < 0 then Err(InsufficientFunds)
            else if sum > MAX_CENTS then Err(InvalidMoney)
            else Ok(w.(balance := Money(sum, amount.currency), version := w.version + 1, updatedAt := at))
    ensures Move(w, direction, amount, at).Ok? ==> HealthyWallet(Move(w, direction, amount, at).value)
  {
  }

  /** Exactly when any movement is accepted, and otherwise an error that names something really wrong with it. */
  lemma AcceptedMove(w: Wallet, direction: Direction, amount: Money, at: Time)
    requires w.balance.IsValid()
    ensures Move(w, direction, amount, at).Ok? <==>
            && amount.IsValid() && amount.cents > 0 && amount.currency == w.balance.currency
            && at != ZERO_TIME && w.updatedAt <= at
            && InRange(w.balance.cents + Signed(direction, amount.cents)) && (direction.Debit? ==> amount.cents <= w.balance.cents)
    ensures Move(w, direction, amount, at).Err? ==>
            match Move(w, direction, amount, at).error
            case InvalidMoney => !amount.IsValid() || !InRange(w.balance.cents + Signed(direction, amount.cents))
            case AmountMustBePositive => amount.cents <= 0
            case CurrencyMismatch => amount.currency != w.balance.currency
            case InvalidTimestamp => at == ZERO_TIME || at < w.updatedAt
            case InsufficientFunds => direction.Debit? && w.balance.cents < amount.cents
            case _ => false
  {
  }

  /** An entry is accepted exactly when its balances differ by its signed amount and everything about it is meaningful. */
  lemma EntryExactly(
    id: Uuid, walletId: Uuid, transactionId: Uuid, direction: Direction, amount: Money, before: Money, after: Money, at: Time)
    ensures BuildEntry(id, walletId, transactionId, direction, amount, before, after, at).Ok? <==>
            && id != NIL_UUID && walletId != NIL_UUID && transactionId != NIL_UUID && at != ZERO_TIME
            && amount.IsValid() && before.IsValid() && after.IsValid()
            && amount.cents > 0 && before.cents >= 0 && after.cents >= 0
            && amount.currency == before.currency == after.currency
            && after.cents - before.cents == Signed(direction, amount.cents)
    ensures var r := BuildEntry(id, walletId, transactionId, direction, amount, before, after, at);
            r.Ok? ==> r.value == Entry(id, walletId, transactionId, direction, amount, before, after, at)
  {
  }
}
