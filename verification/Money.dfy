/** Money as 64-bit minor units plus a currency code: exact arithmetic, decimal parsing and printing. */
module Money {
  import opened Int64
  import opened Wrappers

  /** Three capital letters, as the tables require of every currency. */
  predicate IsCode(c: string) {
    |c| == 3 && forall k | 0 <= k < 3 :: 'A' <= c[k] <= 'Z'
  }

  /** The constructors let only codes through; the zero value of Money has no currency. */
  type Currency = c: string | c == "" || IsCode(c)

  datatype Money = Money(minorUnits: int64, currency: Currency) {
    predicate IsNegative() { minorUnits < 0 }
    predicate IsZero() { minorUnits == 0 }
  }

  // ---------------------------------------------------------------- arithmetic

  function AddInt64(a: int64, b: int64): (r: Option<int64>)
    ensures r.Some? <==> Fits(a + b)
    ensures r.Some? ==> r.value == a + b
  {
    var sum := Wrap(a + b);
    if (b > 0 && sum < a) || (b < 0 && sum > a) then None else Some(sum)
  }

  function SubInt64(a: int64, b: int64): (r: Option<int64>)
    ensures r.Some? <==> Fits(a - b)
    ensures r.Some? ==> r.value == a - b
  {
    var diff := Wrap(a - b);
    if (b < 0 && diff < a) || (b > 0 && diff > a) then None else Some(diff)
  }

  function Add(m: Money, other: Money): (r: Result<Money>)
    ensures r.Ok? <==> m.currency == other.currency != "" && Fits(m.minorUnits + other.minorUnits)
    ensures r.Ok? ==> r.value.minorUnits == m.minorUnits + other.minorUnits && r.value.currency == m.currency
  {
    if m.currency == "" || other.currency == "" then Err(ErrEmptyCurrency)
    else if m.currency != other.currency then Err(ErrCurrencyMismatch)
    else
      match AddInt64(m.minorUnits, other.minorUnits)
      case None => Err(ErrOverflow)
      case Some(sum) => Ok(Money(sum, m.currency))
  }

  function Sub(m: Money, other: Money): (r: Result<Money>)
    ensures r.Ok? <==> m.currency == other.currency != "" && Fits(m.minorUnits - other.minorUnits)
    ensures r.Ok? ==> r.value.minorUnits == m.minorUnits - other.minorUnits && r.value.currency == m.currency
  {
    if m.currency == "" || other.currency == "" then Err(ErrEmptyCurrency)
    else if m.currency != other.currency then Err(ErrCurrencyMismatch)
    else
      match SubInt64(m.minorUnits, other.minorUnits)
      case None => Err(ErrOverflow)
      case Some(diff) => Ok(Money(diff, m.currency))
  }

  // ---------------------------------------------------------------- decimal grammar

  predicate IsDigit(c: char) {
    '0' <= c <= '9'
  }

  predicate AllDigits(s: string) {
    forall i | 0 <= i < |s| :: IsDigit(s[i])
  }

  /** The number a digit string denotes, most significant digit first. */
  function Value(s: string): nat
    requires AllDigits(s)
  {
    if s == "" then 0 else 10 * Value(s[..|s| - 1]) + (s[|s| - 1] - '0') as int
  }

  /** A decimal numeral taken apart: optional sign, whole digits, optional point, fraction digits. */
  datatype Numeral = Numeral(sign: string, whole: string, point: bool, fraction: string) {
    predicate WellFormed() {
      && (sign == "" || sign == "+" || sign == "-")
      && whole != "" && AllDigits(whole) && AllDigits(fraction)
      && (!point ==> fraction == "")
    }

    function Text(): string {
      sign + whole + (if point then "." + fraction else "")
    }

    function Cents(): int
      requires WellFormed() && |fraction| <= 2
    {
      var hundredths := if |fraction| == 0 then 0 else if |fraction| == 1 then 10 * Value(fraction) else Value(fraction);
      var magnitude := 100 * Value(whole) + hundredths;
      if sign == "-" then -magnitude else magnitude
    }
  }

  /** The text `s` is a numeral with at most two fraction digits and denotes `cents` hundredths. */
  ghost predicate Denotes(s: string, cents: int) {
    exists n: Numeral :: n.WellFormed() && |n.fraction| <= 2 && n.Text() == s && n.Cents() == cents
  }

  /** The text `s` is a numeral, but it names fractions of a hundredth. */
  ghost predicate TooFine(s: string) {
    exists n: Numeral :: n.WellFormed() && |n.fraction| > 2 && n.Text() == s
  }

  /** A text has at most one reading, so `Denotes` is a partial function of the text. */
  lemma NumeralUnique(a: Numeral, b: Numeral)
    requires a.WellFormed() && b.WellFormed() && a.Text() == b.Text()
    ensures a == b
  {
    var s := a.Text();
    assert a.sign == b.sign by {
      assert a.sign == "" ==> IsDigit(s[0]);
      assert b.sign == "" ==> IsDigit(s[0]);
      assert a.sign != "" ==> s[0] == a.sign[0];
      assert b.sign != "" ==> s[0] == b.sign[0];
    }
    var k := |a.sign|;
    var ea, eb := k + |a.whole|, k + |b.whole|;
    assert a.whole == s[k..ea] && b.whole == s[k..eb];
    assert a.point ==> s[ea] == '.' && a.fraction == s[ea + 1..];
    assert b.point ==> s[eb] == '.' && b.fraction == s[eb + 1..];
    assert ea == eb;
    assert a.point == (ea < |s|) && b.point == (eb < |s|);
  }

  // ---------------------------------------------------------------- parsing

  method IsAllDigits(s: string) returns (b: bool)
    ensures b == AllDigits(s)
  {
    for i := 0 to |s|
      invariant AllDigits(s[..i])
    {
      if !IsDigit(s[i]) {
        return false;
      }
    }
    assert s[..|s|] == s;
    return true;
  }

  /** What lower-casing and trimming change in ASCII text: an upper-case letter, or an outer blank. */
  predicate ChangedByLowerTrim(s: string) {
    || (exists i | 0 <= i < |s| :: 'A' <= s[i] <= 'Z')
    || (s != "" && (Blank(s[0]) || Blank(s[|s| - 1])))
  }

  predicate Blank(c: char) {
    c == ' ' || '\t' <= c <= '\r'
  }

  predicate ContainsAny(s: string, chars: string) {
    exists i | 0 <= i < |s| :: s[i] in chars
  }

  /** Every character of a numeral is a sign, a digit or the point. */
  lemma NumeralChars(n: Numeral, i: nat)
    requires n.WellFormed() && i < |n.Text()|
    ensures var c := n.Text()[i]; IsDigit(c) || c == '+' || c == '-' || c == '.'
  {
    var tail := if n.point then "." + n.fraction else "";
    var head := n.sign + n.whole;
    assert n.Text() == head + tail;
    if i < |n.sign| {
    } else if i < |head| {
      assert n.Text()[i] == n.whole[i - |n.sign|];
    } else {
      assert n.Text()[i] == tail[i - |head|];
    }
  }

  lemma NumeralPassesFilters(n: Numeral)
    requires n.WellFormed()
    ensures n.Text() != "" && !ChangedByLowerTrim(n.Text()) && !ContainsAny(n.Text(), "einf")
  {
    forall i | 0 <= i < |n.Text()|
      ensures var c := n.Text()[i]; IsDigit(c) || c == '+' || c == '-' || c == '.'
    {
      NumeralChars(n, i);
    }
  }

  /** The library's integer reader on a digit string: it fails exactly above the 64-bit maximum. */
  function ParseInt(s: string): (r: Option<int64>)
    requires AllDigits(s)
    ensures r.Some? <==> Value(s) <= MAX
    ensures r.Some? ==> r.value == Value(s)
  {
    if Value(s) <= MAX then Some(Value(s)) else None
  }

  /** Splits at the first point, as the source's two-way split does. */
  method SplitAtPoint(s: string) returns (whole: string, point: bool, fraction: string)
    ensures s == whole + (if point then "." + fraction else "")
    ensures '.' !in whole && (!point ==> fraction == "")
  {
    var i := 0;
    while i < |s| && s[i] != '.'
      invariant i <= |s| && '.' !in s[..i]
    {
      i := i + 1;
    }
    if i < |s| {
      return s[..i], true, s[i + 1..];
    }
    assert s[..i] == s;
    return s, false, "";
  }

  lemma SplitFindsNumeral(n: Numeral, whole: string, point: bool, fraction: string)
    requires n.WellFormed() && '.' !in whole && (!point ==> fraction == "")
    requires n.whole + (if n.point then "." + n.fraction else "") == whole + (if point then "." + fraction else "")
    ensures n.whole == whole && n.point == point && n.fraction == fraction
  {
    var s := whole + (if point then "." + fraction else "");
    assert n.whole == s[..|n.whole|] && whole == s[..|whole|];
    assert n.point ==> s[|n.whole|] == '.' && n.fraction == s[|n.whole| + 1..];
    assert point ==> s[|whole|] == '.' && fraction == s[|whole| + 1..];
    assert n.point == (|n.whole| < |s|) && point == (|whole| < |s|);
    assert |n.whole| == |whole|;
  }

  /** A text whose parts are not digits (or whose whole part is missing) is no numeral at all. */
  lemma NoReading(amount: string, sign: string, whole: string, point: bool, fraction: string)
    requires amount == sign + (whole + (if point then "." + fraction else ""))
    requires '.' !in whole && (!point ==> fraction == "")
    requires sign == "+" || sign == "-" || (sign == "" && (amount == "" || (amount[0] != '+' && amount[0] != '-')))
    requires whole == "" || !AllDigits(whole) || !AllDigits(fraction)
    ensures forall n: Numeral :: n.WellFormed() ==> n.Text() != amount
  {
    forall n: Numeral | n.WellFormed() && n.Text() == amount
      ensures false
    {
      var rest := n.whole + (if n.point then "." + n.fraction else "");
      assert amount == n.sign + rest;
      assert IsDigit(rest[0]);
      assert n.sign == sign by {
        assert n.sign == "" ==> amount[0] == rest[0];
        assert n.sign != "" ==> amount[0] == n.sign[0];
        assert sign != "" ==> amount[0] == sign[0];
      }
      assert rest == amount[|sign|..] == whole + (if point then "." + fraction else "");
      SplitFindsNumeral(n, whole, point, fraction);
    }
  }

  /** What a parse result says about the text. */
  ghost predicate Verdict(amount: string, r: Result<int64>) {
    match r
    case Ok(cents) => Denotes(amount, cents) && -MAX <= cents <= MAX
    case Err(ErrOverflow) => exists cents :: Denotes(amount, cents) && !(-MAX <= cents <= MAX)
    case Err(ErrExcessiveScale) => TooFine(amount)
    case Err(ErrEmptyAmount) => amount == ""
    case Err(ErrInvalidFormat) => amount != "" && (forall n: Numeral :: n.WellFormed() ==> n.Text() != amount)
    case Err(_) => false
  }

  /** Every text has exactly one verdict: the acceptance condition and the four failures exclude each other. */
  lemma VerdictUnique(amount: string, r: Result<int64>, q: Result<int64>)
    requires Verdict(amount, r) && Verdict(amount, q)
    ensures r == q
  {
    if n: Numeral :| n.WellFormed() && n.Text() == amount {
      OnlyReading(amount, n);
      NumeralPassesFilters(n);
    }
  }

  /** Parsing returns the verdict of the text: it accepts exactly the numerals with at most two fraction
      digits whose cents fit in 63 bits and a sign. */
  method ParseDecimalToMinorUnits(amount: string) returns (r: Result<int64>)
    ensures Verdict(amount, r)
  {
    if amount == "" {
      return Err(ErrEmptyAmount);
    }
    if ChangedByLowerTrim(amount) || ContainsAny(amount, "einf") {
      forall n: Numeral | n.WellFormed()
        ensures n.Text() != amount
      {
        NumeralPassesFilters(n);
      }
      return Err(ErrInvalidFormat);
    }

    var rest, sign := amount, "";
    if amount[0] == '-' {
      rest, sign := amount[1..], "-";
    } else if amount[0] == '+' {
      rest, sign := amount[1..], "+";
    }
    assert amount == sign + rest;

    if rest == "" {
      NoReading(amount, sign, "", false, "");
      return Err(ErrInvalidFormat);
    }

    var whole, point, fraction := SplitAtPoint(rest);
    var wholeDigits := IsAllDigits(whole);
    var fractionDigits := IsAllDigits(fraction);
    if whole == "" || !wholeDigits || (fraction != "" && !fractionDigits) {
      NoReading(amount, sign, whole, point, fraction);
      return Err(ErrInvalidFormat);
    }

    r := Assemble(amount, sign, whole, point, fraction);
  }

  /** The second half of the parser: scale check, padding, digit values and the overflow guard. */
  method Assemble(amount: string, sign: string, whole: string, point: bool, fraction: string) returns (r: Result<int64>)
    requires sign == "" || sign == "+" || sign == "-"
    requires whole != "" && AllDigits(whole) && AllDigits(fraction) && (!point ==> fraction == "")
    requires amount == sign + (whole + (if point then "." + fraction else ""))
    ensures Verdict(amount, r)
  {
    ghost var numeral := Numeral(sign, whole, point, fraction);
    assert numeral.Text() == amount;
    OnlyReading(amount, numeral);
    if |fraction| > 2 {
      return Err(ErrExcessiveScale);
    }

    var padded := fraction;
    while |padded| < 2
      invariant |fraction| <= |padded| <= 2
      invariant AllDigits(padded) && padded[..|fraction|] == fraction
      invariant forall i | |fraction| <= i < |padded| :: padded[i] == '0'
      decreases 2 - |padded|
    {
      padded := padded + "0";
    }
    PaddedValue(fraction, padded);
    ghost var cents := numeral.Cents();
    assert Denotes(amount, cents);

    var wholeValue := ParseInt(whole);
    if wholeValue.None? {
      return Err(ErrOverflow);
    }
    var fractionValue := ParseInt(padded);
    if wholeValue.value > (MAX - fractionValue.value) / 100 {
      return Err(ErrOverflow);
    }
    var total := wholeValue.value * 100 + fractionValue.value;
    if sign == "-" {
      total := -total;
    }
    return Ok(total);
  }

  lemma OnlyReading(amount: string, n: Numeral)
    requires n.WellFormed() && n.Text() == amount
    ensures forall m: Numeral :: m.WellFormed() && m.Text() == amount ==> m == n
    ensures TooFine(amount) <==> |n.fraction| > 2
    ensures |n.fraction| <= 2 ==> forall cents :: Denotes(amount, cents) <==> cents == n.Cents()
    ensures |n.fraction| > 2 ==> forall cents :: !Denotes(amount, cents)
  {
    forall m: Numeral | m.WellFormed() && m.Text() == amount
      ensures m == n
    {
      NumeralUnique(m, n);
    }
  }

  lemma PaddedValue(fraction: string, padded: string)
    requires AllDigits(fraction) && AllDigits(padded) && |fraction| <= |padded| == 2
    requires padded[..|fraction|] == fraction
    requires forall i | |fraction| <= i < |padded| :: padded[i] == '0'
    ensures Value(padded) == if |fraction| == 0 then 0 else if |fraction| == 1 then 10 * Value(fraction) else Value(fraction)
    ensures Value(padded) < 100
  {
    var tens := padded[..1];
    assert tens[..0] == "" && Value(tens) == (padded[0] - '0') as int;
    assert padded[..|padded| - 1] == tens;
    assert Value(padded) == 10 * Value(tens) + (padded[1] - '0') as int;
    if |fraction| == 1 {
      assert fraction == tens;
    } else if |fraction| == 2 {
      assert fraction == padded;
    } else {
      assert padded[0] == '0' && padded[1] == '0';
    }
  }

  /** Unicode upper case as far as it yields ASCII letters: besides a to z, the dotless i and the long s have such a form. */
  function UpperChar(c: char): char {
    if 'a' <= c <= 'z' then c - 'a' + 'A' else if c == '\U{0131}' then 'I' else if c == '\U{017F}' then 'S' else c
  }

  function UpperCase(s: string): (r: string)
    ensures Spells(s, r)
  {
    if s == "" then "" else [UpperChar(s[0])] + UpperCase(s[1..])
  }

  /** The text is the code, letter by letter, whatever its case. */
  predicate Spells(s: string, code: string) {
    |s| == |code| && forall k | 0 <= k < |s| :: UpperChar(s[k]) == code[k]
  }

  /** `iso` is the table of known currency codes: exactly the spellings of its codes are accepted, as the code itself. */
  function NormalizeCurrency(currency: string, iso: set<string>): (r: Result<Currency>)
    ensures r.Ok? <==> exists code | code in iso :: IsCode(code) && Spells(currency, code)
    ensures r.Ok? ==> r.value in iso && IsCode(r.value) && Spells(currency, r.value)
    ensures r.Err? ==> r.error == if currency == "" then ErrEmptyCurrency else ErrInvalidCurrency
  {
    SpelledOnce(currency, UpperCase(currency));
    var cur := UpperCase(currency);
    if currency == "" then Err(ErrEmptyCurrency)
    else if |cur| != 3 || (exists c | c in cur :: !('A' <= c <= 'Z')) then Err(ErrInvalidCurrency)
    else if cur !in iso then Err(ErrInvalidCurrency)
    else Ok(cur)
  }

  lemma SpelledOnce(s: string, code: string)
    requires Spells(s, code)
    ensures forall other | Spells(s, other) :: other == code
    ensures IsCode(code) <==> |code| == 3 && forall c | c in code :: 'A' <= c <= 'Z'
  {
    if |code| == 3 && (forall c | c in code :: 'A' <= c <= 'Z') {
      assert forall k | 0 <= k < 3 :: code[k] in code;
    }
  }

  /** The entry point for provider input: a known currency and a numeral of value at least zero. */
  method FromDecimalString(amount: string, currency: string, iso: set<string>) returns (r: Result<Money>)
    ensures r.Ok? <==> NormalizeCurrency(currency, iso).Ok? && exists cents :: Denotes(amount, cents) && 0 <= cents <= MAX
    ensures r.Ok? ==> Denotes(amount, r.value.minorUnits) && Ok(r.value.currency) == NormalizeCurrency(currency, iso)
  {
    var cur := NormalizeCurrency(currency, iso);
    if cur.Err? {
      return Err(cur.error);
    }
    var units := ParseDecimalToMinorUnits(amount);
    forall a, b | Denotes(amount, a) && Denotes(amount, b)
      ensures a == b
    {
      DenotesFunctional(amount, a, b);
    }
    match units {
      case Err(e) =>
        RefusedMeans(amount, units);
        return Err(e);
      case Ok(v) =>
        if v < 0 {
          return Err(ErrNegativeNotAllowed);
        }
        return Ok(Money(v, cur.value));
    }
  }

  lemma RefusedMeans(amount: string, r: Result<int64>)
    requires Verdict(amount, r) && r.Err?
    ensures forall cents :: Denotes(amount, cents) ==> !(-MAX <= cents <= MAX)
  {
    forall cents | Denotes(amount, cents)
      ensures !(-MAX <= cents <= MAX)
    {
      if -MAX <= cents <= MAX {
        VerdictUnique(amount, r, Ok(cents));
      }
    }
  }

  lemma DenotesFunctional(amount: string, a: int, b: int)
    requires Denotes(amount, a) && Denotes(amount, b)
    ensures a == b
  {
    var m: Numeral :| m.WellFormed() && |m.fraction| <= 2 && m.Text() == amount && m.Cents() == a;
    var n: Numeral :| n.WellFormed() && |n.fraction| <= 2 && n.Text() == amount && n.Cents() == b;
    NumeralUnique(m, n);
  }

  // ---------------------------------------------------------------- printing

  function Digits(n: nat): (s: string)
    ensures s != "" && AllDigits(s) && Value(s) == n
  {
    var last := [('0' as int + n % 10) as char];
    if n < 10 then
      assert last[..0] == "";
      last
    else
      var front := Digits(n / 10);
      assert (front + last)[..|front|] == front;
      front + last
  }

  function TwoDigits(n: nat): (s: string)
    requires n < 100
    ensures |s| == 2 && AllDigits(s) && Value(s) == n
  {
    var front := [('0' as int + n / 10) as char];
    var s := front + [('0' as int + n % 10) as char];
    assert front[..0] == "" && s[..1] == front;
    assert Value(front) == n / 10;
    s
  }

  /** The magnitude is taken as an unsigned word through `-(m + 1)`, which fits even at the minimum. */
  function Magnitude(m: int64): (r: nat)
    ensures r == m || r == 0 - m
  {
    if m < 0 then
      var almost: int64 := -(m + 1);
      almost + 1
    else m
  }

  function DecimalString(m: int64): string {
    var magnitude := Magnitude(m);
    (if m < 0 then "-" else "") + Digits(magnitude / 100) + "." + TwoDigits(magnitude % 100)
  }

  /** Printing is correct for every 64-bit amount, the minimum included. */
  lemma PrintDenotes(m: int64)
    ensures Denotes(DecimalString(m), m)
  {
    var magnitude := Magnitude(m);
    var n := Numeral(if m < 0 then "-" else "", Digits(magnitude / 100), true, TwoDigits(magnitude % 100));
    assert n.Text() == DecimalString(m);
    assert n.Cents() == m;
  }

  /** Parse after print gives the amount back on every value a balance or an operation can hold, and the
      one printed amount that cannot be read back is the minimum, whose magnitude overflows. */
  lemma ParseAfterPrint(m: int64)
    ensures forall r :: Verdict(DecimalString(m), r) ==> r == if m == MIN then Err(ErrOverflow) else Ok(m)
  {
    PrintDenotes(m);
    var expected: Result<int64> := if m == MIN then Err(ErrOverflow) else Ok(m);
    assert Verdict(DecimalString(m), expected);
    forall r | Verdict(DecimalString(m), r)
      ensures r == expected
    {
      VerdictUnique(DecimalString(m), r, expected);
    }
  }

  /** Two spellings of an amount have the same canonical text exactly when they denote the same value, so
      the payload hash identifies amounts by value ("5", "5.0" and "+5.00" are one request). */
  lemma SameCanonicalIffSameValue(a: string, b: string, va: int64, vb: int64)
    requires Denotes(a, va) && Denotes(b, vb)
    ensures DecimalString(va) == DecimalString(vb) <==> va == vb
  {
    PrintDenotes(va);
    PrintDenotes(vb);
    if DecimalString(va) == DecimalString(vb) {
      DenotesFunctional(DecimalString(va), va, vb);
    }
  }
}
