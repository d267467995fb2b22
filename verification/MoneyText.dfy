/**
 The fixed-scale decimal text of an amount: the accepted pattern, the parser, the printer
 (internal/domain/money.go) and the signed reader used by reconciliation
 (internal/infrastructure/postgres/wallet_ledger_repository.go).
 */
module MoneyText {
  import opened Basics
  import opened Money

  predicate IsDigit(c: char) { '0' <= c <= '9' }

  function DigitValue(c: char): nat
    requires IsDigit(c)
  {
    c as int - '0' as int
  }

  function Digit(d: nat): char
    requires d < 10
  {
    ('0' as int + d) as char
  }

  predicate AllDigits(s: string) {
    forall i :: 0 <= i < |s| ==> IsDigit(s[i])
  }

  /** The number a digit string denotes; the empty string denotes 0. */
  function Value(s: string): nat
    requires AllDigits(s)
  {
    if s == "" then 0 else 10 * Value(s[..|s| - 1]) + DigitValue(s[|s| - 1])
  }

  /** Decimal digits without leading zeros. */
  function Digits(n: nat): string {
    if n < 10 then [Digit(n)] else Digits(n / 10) + [Digit(n % 10)]
  }

  /** ^(0|[1-9][0-9]{0,17})\.[0-9]{2}$ */
  predicate Matches(s: string) {
    && 4 <= |s| <= 21
    && s[|s| - 3] == '.' && IsDigit(s[|s| - 2]) && IsDigit(s[|s| - 1])
    && var whole := s[..|s| - 3];
       AllDigits(whole) && (whole == "0" || whole[0] != '0')
  }

  function Cents(s: string): nat
    requires Matches(s)
  {
    100 * Value(s[..|s| - 3]) + 10 * DigitValue(s[|s| - 2]) + DigitValue(s[|s| - 1])
  }

  function ParseMoney(s: string, currency: string): Result<Money> {
    if !ValidCurrency(currency) then Err(InvalidCurrency)
    else if !Matches(s) then Err(InvalidMoney)
    else NewMoney(Cents(s), currency)
  }

  function PrintUnsigned(cents: nat): string {
    Digits(cents / 100) + "." + [Digit(cents / 10 % 10), Digit(cents % 10)]
  }

  /** decimal.StringFixed(2) */
  function Print(cents: int): string {
    if cents < 0 then "-" + PrintUnsigned(-cents) else PrintUnsigned(cents)
  }

  /** parseSignedMoney */
  function ParseSigned(s: string, currency: string): Result<Money> {
    if s != "" && s[0] == '-' then
      var money :- ParseMoney(s[1..], currency);
      money.Negate()
    else ParseMoney(s, currency)
  }

  // ----- digits -----

  function Pow10(k: nat): nat { if k == 0 then 1 else 10 * Pow10(k - 1) }

  lemma {:induction false} ValueOfDigits(n: nat)
    ensures AllDigits(Digits(n)) && Value(Digits(n)) == n
    ensures |Digits(n)| >= 1 && (Digits(n)[0] == '0' <==> n == 0)
  {
    if n >= 10 {
      ValueOfDigits(n / 10);
      var s := Digits(n);
      assert s[..|s| - 1] == Digits(n / 10);
    } else {
      assert Digits(n)[..0] == "";
    }
  }

  lemma {:induction false} DigitsOfValue(s: string)
    requires AllDigits(s) && |s| >= 1 && (s[0] != '0' || s == "0")
    ensures Digits(Value(s)) == s && (Value(s) == 0 <==> s == "0")
  {
    var t := s[..|s| - 1];
    if t == "" {
      assert Value(s) == DigitValue(s[0]);
    } else {
      assert t[0] == s[0];
      DigitsOfValue(t);
      assert Value(s) / 10 == Value(t) && Value(s) % 10 == DigitValue(s[|s| - 1]);
      assert s == t + [s[|s| - 1]];
    }
  }

  lemma {:induction false} ValueBelowPower(s: string)
    requires AllDigits(s)
    ensures Value(s) < Pow10(|s|)
  {
    if s != "" {
      ValueBelowPower(s[..|s| - 1]);
    }
  }

  lemma {:induction false} FewDigits(n: nat, k: nat)
    requires k >= 1 && n < Pow10(k)
    ensures |Digits(n)| <= k
  {
    if n >= 10 {
      assert Pow10(1) == 10;
      FewDigits(n / 10, k - 1);
    }
  }

  lemma {:induction false} Pow10Monotone(j: nat, k: nat)
    requires j <= k
    ensures Pow10(j) <= Pow10(k)
  {
    if j < k { Pow10Monotone(j, k - 1); }
  }

  lemma EighteenDigits()
    ensures Pow10(18) == 1_000_000_000_000_000_000 && MAX_CENTS == 100 * Pow10(18) - 1
  {
    assert Pow10(3) == 1_000 by { assert Pow10(2) == 100; }
    assert Pow10(6) == 1_000_000 by { assert Pow10(5) == 100_000 && Pow10(4) == 10_000; }
    assert Pow10(9) == 1_000_000_000 by { assert Pow10(8) == 100_000_000 && Pow10(7) == 10_000_000; }
    assert Pow10(12) == 1_000_000_000_000 by { assert Pow10(11) == 10 * Pow10(10) && Pow10(10) == 10 * Pow10(9); }
    assert Pow10(15) == 1_000_000_000_000_000 by { assert Pow10(14) == 10 * Pow10(13) && Pow10(13) == 10 * Pow10(12); }
    assert Pow10(17) == 10 * Pow10(16) && Pow10(16) == 10 * Pow10(15);
  }

  /** The number a digit string denotes, digit by digit from the left, each weighted by its place. */
  function ByPlace(s: string): nat
    requires AllDigits(s)
  {
    if s == "" then 0 else DigitValue(s[0]) * Pow10(|s| - 1) + ByPlace(s[1..])
  }

  /** One more digit at the end multiplies the number before it by ten. */
  lemma {:induction false} ByPlaceAppends(s: string, c: char)
    requires AllDigits(s) && IsDigit(c)
    ensures ByPlace(s + [c]) == 10 * ByPlace(s) + DigitValue(c)
  {
    var t := s + [c];
    if s == "" {
      assert t[1..] == "" && Pow10(0) == 1;
    } else {
      assert t[1..] == s[1..] + [c];
      ByPlaceAppends(s[1..], c);
      TenTimes(DigitValue(s[0]), |s|);
    }
  }

  lemma TenTimes(d: nat, k: nat)
    requires k >= 1
    ensures d * Pow10(k) == 10 * (d * Pow10(k - 1))
  {
  }

  lemma {:induction false} ValueIsByPlace(s: string)
    requires AllDigits(s)
    ensures Value(s) == ByPlace(s)
  {
    if s != "" {
      var init := s[..|s| - 1];
      ValueIsByPlace(init);
      ByPlaceAppends(init, s[|s| - 1]);
      assert s == init + [s[|s| - 1]];
    }
  }

  /** The amount of an accepted text, in cents, is the number its digits write without the point. */
  lemma CentsAreDigits(s: string)
    requires Matches(s)
    ensures var digits := s[..|s| - 3] + s[|s| - 2..]; AllDigits(digits) && Cents(s) == ByPlace(digits)
  {
    var whole, digits := s[..|s| - 3], s[..|s| - 3] + s[|s| - 2..];
    ValueIsByPlace(digits);
    assert digits[..|digits| - 1][..|digits| - 2] == whole;
  }

  // ----- round trips -----

  /** Every amount in range prints to a text the pattern accepts, and parsing gives the amount back. */
  lemma PrintThenParse(cents: int)
    requires 0 <= cents <= MAX_CENTS
    ensures Matches(Print(cents)) && Cents(Print(cents)) == cents && Print(cents)[0] != '-'
  {
    var whole, tens, ones := cents / 100, cents / 10 % 10, cents % 10;
    SplitCents(cents);
    PrintedWhole(whole);
    var s := Digits(whole) + "." + [Digit(tens), Digit(ones)];
    assert s[..|s| - 3] == Digits(whole);
    assert s[|s| - 2] == Digit(tens) && s[|s| - 1] == Digit(ones);
  }

  lemma SplitCents(cents: nat)
    ensures cents == 100 * (cents / 100) + 10 * (cents / 10 % 10) + cents % 10
  {
    var tens := cents / 10;
    assert cents / 100 == tens / 10 by {
      TwoDecimals(tens / 10, tens % 10, cents % 10);
    }
  }

  lemma PrintedWhole(whole: nat)
    requires 100 * whole <= MAX_CENTS
    ensures var s := Digits(whole);
            1 <= |s| <= 18 && AllDigits(s) && (s == "0" || s[0] != '0') && Value(s) == whole
  {
    EighteenDigits();
    FewDigits(whole, 18);
    ValueOfDigits(whole);
  }

  /** Every accepted text denotes an amount in range and is its canonical printing. */
  lemma ParseThenPrint(s: string)
    requires Matches(s)
    ensures 0 <= Cents(s) <= MAX_CENTS && Print(Cents(s)) == s
  {
    var whole, tens, ones := s[..|s| - 3], s[|s| - 2], s[|s| - 1];
    AcceptedWhole(whole);
    TwoDecimals(Value(whole), DigitValue(tens), DigitValue(ones));
    assert PrintUnsigned(Cents(s)) == whole + "." + [tens, ones];
    assert s == whole + "." + [tens, ones];
  }

  lemma AcceptedWhole(whole: string)
    requires 1 <= |whole| <= 18 && AllDigits(whole) && (whole == "0" || whole[0] != '0')
    ensures Digits(Value(whole)) == whole && 100 * Value(whole) + 99 <= MAX_CENTS
  {
    ValueBelowPower(whole);
    Pow10Monotone(|whole|, 18);
    EighteenDigits();
    DigitsOfValue(whole);
  }

  lemma TwoDecimals(whole: nat, tens: nat, ones: nat)
    requires tens < 10 && ones < 10
    ensures var c := 100 * whole + 10 * tens + ones; c / 100 == whole && c / 10 % 10 == tens && c % 10 == ones
  {
    var c := 100 * whole + 10 * tens + ones;
    assert c / 10 == 10 * whole + tens;
    assert c / 100 == whole;
  }

  /** The pattern accepts exactly the canonical printings of 0 to 10^20 - 1 cents, each for one amount only. */
  lemma PatternIsCanonical(s: string, currency: string)
    requires ValidCurrency(currency)
    ensures Matches(s) <==> exists c :: 0 <= c <= MAX_CENTS && Print(c) == s
    ensures forall m :: ParseMoney(s, currency) == Ok(m) <==>
                        m.currency == currency && 0 <= m.cents <= MAX_CENTS && Print(m.cents) == s
  {
    if Matches(s) {
      ParseThenPrint(s);
    }
    forall c | 0 <= c <= MAX_CENTS && Print(c) == s
      ensures Matches(s) && Cents(s) == c
    {
      PrintThenParse(c);
    }
  }

  /** Signed amounts survive printing and signed parsing. */
  lemma SignedPrintThenParse(cents: int, currency: string)
    requires ValidCurrency(currency) && InRange(cents)
    ensures ParseSigned(Print(cents), currency) == Ok(Money(cents, currency))
  {
    PrintThenParse(if cents < 0 then -cents else cents);
    if cents < 0 {
      assert Print(cents)[1..] == Print(-cents);
    }
  }

  /** Whatever the signed reader accepts is the printing of its value, with "-0.00" as the only exception. */
  lemma SignedParseThenPrint(s: string, currency: string)
    requires ParseSigned(s, currency).Ok?
    ensures Print(ParseSigned(s, currency).value.cents) == s <==> s != "-0.00"
  {
    if s[0] == '-' {
      var t := s[1..];
      assert s == "-" + t;
      NegativeText(t, Cents(t));
    } else {
      ParseThenPrint(s);
    }
  }

  lemma NegativeText(t: string, c: int)
    requires Matches(t) && Cents(t) == c
    ensures Print(-c) == "-" + t <==> "-" + t != "-0.00"
  {
    ParseThenPrint(t);
    PrintThenParse(0);
    assert Print(0) == "0.00" by { assert Digits(0) == "0"; }
    assert ("-" + t)[1..] == t && "-0.00"[1..] == "0.00";
    if c == 0 {
      assert t == "0.00";
      assert Print(-c)[0] == '0';
    }
  }
}
