/**
 Money as a whole number of cents in one currency (internal/domain/money.go, currency.go).
 The range is that of NUMERIC(20, 2).
 */
module Money {
  import opened Basics

  /** 999999999999999999.99 */
  const MAX_CENTS: int := 99_999_999_999_999_999_999

  predicate ValidCurrency(code: string) {
    |code| == 3 && forall i :: 0 <= i < 3 ==> 'A' <= code[i] <= 'Z'
  }

  predicate InRange(cents: int) { -MAX_CENTS <= cents <= MAX_CENTS }

  datatype Money = Money(cents: int, currency: string) {
    predicate IsValid() { ValidCurrency(currency) && InRange(cents) }
    predicate IsZero() { cents == 0 }
    predicate IsPositive() { cents > 0 }
    predicate IsNegative() { cents < 0 }

    function Add(other: Money): (r: Result<Money>)
    {
      if ValidateOperation(other).Fail? then Err(ValidateOperation(other).error)
      else NewMoney(cents + other.cents, currency)
    }

    function Sub(other: Money): (r: Result<Money>)
    {
      if ValidateOperation(other).Fail? then Err(ValidateOperation(other).error)
      else NewMoney(cents - other.cents, currency)
    }

    function Negate(): (r: Result<Money>)
    {
      if !IsValid() then Err(InvalidMoney) else NewMoney(-cents, currency)
    }

    /** Three-way comparison: negative, zero or positive. */
    function Compare(other: Money): (r: Result<int>)
    {
      if ValidateOperation(other).Fail? then Err(ValidateOperation(other).error)
      else Ok(if cents < other.cents then -1 else if cents == other.cents then 0 else 1)
    }

    function ValidateOperation(other: Money): Check {
      if !IsValid() || !other.IsValid() then Fail(InvalidMoney)
      else if currency != other.currency then Fail(CurrencyMismatch)
      else Pass
    }
  }

  function NewMoney(cents: int, currency: string): Result<Money> {
    if !ValidCurrency(currency) then Err(InvalidCurrency)
    else if !InRange(cents) then Err(InvalidMoney)
    else Ok(Money(cents, currency))
  }

  function Zero(currency: string): Result<Money> {
    if !ValidCurrency(currency) then Err(InvalidCurrency) else Ok(Money(0, currency))
  }
}
