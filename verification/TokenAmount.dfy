/**
 Fixed-point printing of token amounts (`UiTokenAmount` in `account-decoder/src/parse_token.rs`).

 Printing is proved against a reader of decimal numerals: it loses nothing, and trimming yields the
 one shortest numeral of the same value.
 */
module TokenAmount {
  import opened Wrappers

  const U64_MAX: nat := 0xffff_ffff_ffff_ffff

  // ---------------------------------------------------------------------------
  // Digits
  // ---------------------------------------------------------------------------

  predicate IsDigit(c: char) {
    '0' <= c <= '9'
  }

  function DigitValue(c: char): (d: nat)
    requires IsDigit(c)
    ensures d < 10
  {
    c as int - '0' as int
  }

  function DigitChar(d: nat): (c: char)
    requires d < 10
    ensures IsDigit(c) && DigitValue(c) == d
  {
    ('0' as int + d) as char
  }

  predicate AllDigits(s: string) {
    forall i :: 0 <= i < |s| ==> IsDigit(s[i])
  }

  /** The number that a string of digits denotes. */
  function Value(s: string): nat
    requires AllDigits(s)
  {
    if s == [] then 0 else 10 * Value(s[..|s| - 1]) + DigitValue(s[|s| - 1])
  }

  /** `to_string` of an unsigned integer. */
  function Decimal(n: nat): (s: string)
    ensures s != [] && AllDigits(s)
  {
    if n < 10 then [DigitChar(n)] else Decimal(n / 10) + [DigitChar(n % 10)]
  }

  function Zeros(n: nat): (s: string)
    ensures |s| == n && AllDigits(s)
  {
    seq(n, _ => '0')
  }

  /** `format!("{:01$}", n, width)`. */
  function Padded(n: nat, width: nat): (s: string)
    ensures AllDigits(s) && |s| >= width && s != []
  {
    var digits := Decimal(n);
    if |digits| >= width then digits else Zeros(width - |digits|) + digits
  }

  /** `u64::from_str`: an optional plus sign and at least one digit, within 64 bits. */
  function ParseU64(s: string): Option<nat> {
    var digits := if s != [] && s[0] == '+' then s[1..] else s;
    if digits == [] || !AllDigits(digits) || Value(digits) > U64_MAX then None else Some(Value(digits))
  }

  lemma {:induction false} ValueOfDecimal(n: nat)
    ensures Value(Decimal(n)) == n
    decreases n
  {
    if n < 10 {
      assert Decimal(n)[..0] == [];
    } else {
      ValueOfDecimal(n / 10);
      assert Decimal(n)[..|Decimal(n)| - 1] == Decimal(n / 10);
    }
  }

  lemma ParseDecimal(n: nat)
    requires n <= U64_MAX
    ensures ParseU64(Decimal(n)) == Some(n)
  {
    ValueOfDecimal(n);
    assert IsDigit(Decimal(n)[0]);
  }

  /** The last digit of a padded number, and the digits before it. */
  lemma PaddedSnoc(n: nat, width: nat)
    requires width > 0
    ensures Padded(n, width + 1) == Padded(n / 10, width) + [DigitChar(n % 10)]
  {
    if n < 10 {
      assert Decimal(n / 10) == ['0'];
      assert Zeros(width - 1) + ['0'] == Zeros(width);
    } else if |Decimal(n)| < width + 1 {
      var z := width + 1 - |Decimal(n)|;
      assert Zeros(z) + (Decimal(n / 10) + [DigitChar(n % 10)]) == (Zeros(z) + Decimal(n / 10)) + [DigitChar(n % 10)];
    }
  }

  lemma ValueSnoc(before: string, last: char)
    requires AllDigits(before) && IsDigit(last)
    ensures AllDigits(before + [last])
    ensures Value(before + [last]) / 10 == Value(before)
    ensures DigitChar(Value(before + [last]) % 10) == last
  {
    assert (before + [last])[..|before|] == before;
    assert Value(before + [last]) == 10 * Value(before) + DigitValue(last);
  }

  /** A digit string is its own value, padded to its own length. */
  lemma {:induction false} PaddedValue(s: string)
    requires s != [] && AllDigits(s)
    ensures Padded(Value(s), |s|) == s
    decreases |s|
  {
    var n := |s| - 1;
    var before, last := s[..n], s[n];
    assert s == before + [last];
    ValueSnoc(before, last);
    if n == 0 {
      assert Value(before) == 0 && Value(s) < 10;
    } else {
      PaddedValue(before);
      PaddedSnoc(Value(s), n);
    }
  }

  lemma {:induction false} DecimalHead(n: nat)
    ensures n > 0 ==> Decimal(n)[0] != '0'
    decreases n
  {
    if n >= 10 {
      DecimalHead(n / 10);
    }
  }

  lemma {:induction false} ValueOfPadded(n: nat, width: nat)
    ensures Value(Padded(n, width)) == n
    decreases width
  {
    if |Decimal(n)| >= width {
      ValueOfDecimal(n);
    } else {
      var w := width - 1;
      PaddedSnoc(n, w);
      ValueOfPadded(n / 10, w);
      assert Padded(n, width)[..|Padded(n, width)| - 1] == Padded(n / 10, w);
    }
  }

  // ---------------------------------------------------------------------------
  // Printing
  // ---------------------------------------------------------------------------

  /** A token amount as decoded: a decimal string and a number of decimals. */
  datatype UiTokenAmount = UiTokenAmount(amount: string, decimals: nat)

  function TokenAmountToUiAmount(amount: nat, decimals: nat): UiTokenAmount {
    UiTokenAmount(Decimal(amount), decimals)
  }

  function Insert(s: string, at: nat, c: char): string
    requires at <= |s|
  {
    s[..at] + [c] + s[at..]
  }

  function RealNumberString(token: UiTokenAmount): string {
    if token.decimals > 0 then
      var amount := match ParseU64(token.amount) case Some(n) => n case None => 0;
      Point(Padded(amount, token.decimals + 1), token.decimals)
    else token.amount
  }

  function TrimEnd(s: string, c: char): string {
    if s != [] && s[|s| - 1] == c then TrimEnd(s[..|s| - 1], c) else s
  }

  function RealNumberStringTrimmed(token: UiTokenAmount): string {
    TrimEnd(TrimEnd(RealNumberString(token), '0'), '.')
  }

  /** The numeral with k decimals whose digits spell m. */
  function Print(m: nat, k: nat): string {
    if k == 0 then Decimal(m) else Point(Padded(m, k + 1), k)
  }

  /** Puts the point before the last k characters. */
  function Point(s: string, k: nat): string
    requires k <= |s|
  {
    Insert(s, |s| - k, '.')
  }

  lemma PrintsAmount(amount: nat, decimals: nat)
    requires amount <= U64_MAX
    ensures RealNumberString(TokenAmountToUiAmount(amount, decimals)) == Print(amount, decimals)
  {
    ParseDecimal(amount);
  }

  // ---------------------------------------------------------------------------
  // Reading
  // ---------------------------------------------------------------------------

  /** The number mantissa / 10^scale. */
  datatype Fixed = Fixed(mantissa: nat, scale: nat)

  function DotIndex(s: string): (i: nat)
    ensures i <= |s| && (i < |s| ==> s[i] == '.') && forall j :: 0 <= j < i ==> s[j] != '.'
  {
    if s == [] || s[0] == '.' then 0 else 1 + DotIndex(s[1..])
  }

  /** Digits, optionally followed by a point and at least one more digit. */
  function Read(s: string): Option<Fixed> {
    var dot := DotIndex(s);
    var whole := s[..dot];
    if whole == [] || !AllDigits(whole) then None
    else if dot == |s| then Some(Fixed(Value(whole), 0))
    else
      var fraction := s[dot + 1..];
      if fraction == [] || !AllDigits(fraction) then None
      else Some(Fixed(Value(whole + fraction), |fraction|))
  }

  /** A numeral whose whole part has no superfluous leading zero. */
  predicate Canonical(s: string) {
    Read(s).Some? && (s[0] == '0' ==> DotIndex(s) == 1)
  }

  lemma DotIsAt(whole: string, rest: string)
    requires AllDigits(whole) && (rest == [] || rest[0] == '.')
    ensures DotIndex(whole + rest) == |whole|
  {
    var s := whole + rest;
    assert forall j :: 0 <= j < |whole| ==> s[j] == whole[j] && IsDigit(whole[j]);
    assert rest != [] ==> s[|whole|] == '.';
  }

  lemma ReadWhole(whole: string)
    requires whole != [] && AllDigits(whole)
    ensures Read(whole) == Some(Fixed(Value(whole), 0)) && DotIndex(whole) == |whole|
  {
    DotIsAt(whole, []);
    assert whole + [] == whole && whole[..|whole|] == whole;
  }

  lemma ReadPoint(whole: string, fraction: string)
    requires whole != [] && AllDigits(whole) && fraction != [] && AllDigits(fraction)
    ensures AllDigits(whole + fraction)
    ensures Read(whole + ['.'] + fraction) == Some(Fixed(Value(whole + fraction), |fraction|))
    ensures DotIndex(whole + ['.'] + fraction) == |whole|
  {
    var s := whole + ['.'] + fraction;
    DotIsAt(whole, ['.'] + fraction);
    assert s == whole + (['.'] + fraction);
    assert s[..|whole|] == whole && s[|whole| + 1..] == fraction;
  }

  /** The two parts of a printed numeral: k fraction digits, and a whole part without superfluous zeros. */
  lemma PrintParts(m: nat, k: nat) returns (whole: string, fraction: string)
    requires k > 0
    ensures whole != [] && AllDigits(whole) && |fraction| == k && AllDigits(fraction)
    ensures Print(m, k) == whole + ['.'] + fraction && whole + fraction == Padded(m, k + 1)
    ensures whole[0] == '0' ==> |whole| == 1
  {
    var s := Padded(m, k + 1);
    whole, fraction := s[..|s| - k], s[|s| - k..];
    assert whole + fraction == s;
    if |s| > k + 1 {
      assert s == Decimal(m) && m >= 10;
      DecimalHead(m);
    }
  }

  /** Reading back what was printed gives exactly the amount and the number of decimals. */
  lemma ReadPrint(m: nat, k: nat)
    ensures Read(Print(m, k)) == Some(Fixed(m, k)) && Canonical(Print(m, k))
  {
    if k == 0 {
      ReadWhole(Decimal(m));
      ValueOfDecimal(m);
      DecimalHead(m);
    } else {
      var whole, fraction := PrintParts(m, k);
      ReadPoint(whole, fraction);
      ValueOfPadded(m, k + 1);
    }
  }

  /** For a fixed number of decimals, different amounts print differently. */
  /** Digits for n, with or without a plus sign, within 64 bits. */
  ghost predicate Spells(s: string, n: nat) {
    exists digits :: SpellsPlainly(digits, n) && (s == digits || s == "+" + digits)
  }

  ghost predicate SpellsPlainly(digits: string, n: nat) {
    digits != [] && AllDigits(digits) && Value(digits) == n <= U64_MAX
  }

  /** With decimals, an amount string prints as what it spells, and as zero if it spells nothing. */
  lemma AnyAmountPrints(token: UiTokenAmount)
    requires token.decimals > 0
    ensures forall n: nat :: Spells(token.amount, n) ==> Read(RealNumberString(token)) == Some(Fixed(n, token.decimals))
    ensures (forall n: nat :: !Spells(token.amount, n)) ==> Read(RealNumberString(token)) == Some(Fixed(0, token.decimals))
  {
    var s := token.amount;
    forall n: nat | Spells(s, n) ensures ParseU64(s) == Some(n) {
      var digits :| SpellsPlainly(digits, n) && (s == digits || s == "+" + digits);
      assert IsDigit(digits[0]);
      assert ("+" + digits)[1..] == digits;
    }
    if ParseU64(s).Some? {
      var digits := if s[0] == '+' then s[1..] else s;
      assert SpellsPlainly(digits, ParseU64(s).value) && (s == digits || s == "+" + digits);
      assert Spells(s, ParseU64(s).value);
    }
    ReadPrint(match ParseU64(s) case Some(n) => n case None => 0, token.decimals);
  }

  lemma PrintInjective(m: nat, n: nat, k: nat)
    requires Print(m, k) == Print(n, k)
    ensures m == n
  {
    ReadPrint(m, k);
    ReadPrint(n, k);
  }

  /** A canonical numeral is what its own value prints as: there is no other one with as many decimals. */
  lemma PrintRead(s: string)
    requires Canonical(s)
    ensures Print(Read(s).value.mantissa, Read(s).value.scale) == s
  {
    var dot := DotIndex(s);
    var whole := s[..dot];
    if dot == |s| {
      assert whole == s;
      PrintOfDigits(whole, 0);
    } else {
      var fraction := s[dot + 1..];
      PrintOfDigits(whole + fraction, |fraction|);
      PointBetween(whole, fraction);
      assert s == whole + ['.'] + fraction;
    }
  }

  lemma PointBetween(whole: string, fraction: string)
    ensures Point(whole + fraction, |fraction|) == whole + ['.'] + fraction
  {
  }

  lemma PrintOfDigits(digits: string, k: nat)
    requires |digits| > k && AllDigits(digits) && (digits[0] == '0' ==> |digits| == k + 1)
    ensures Print(Value(digits), k) == if k == 0 then digits else Point(digits, k)
  {
    NoPadding(digits, k + 1);
  }

  /** Digits longer than asked for that do not start with a zero are printed without padding. */
  lemma NoPadding(digits: string, width: nat)
    requires digits != [] && AllDigits(digits) && width > 0
    requires |digits| >= width && (digits[0] == '0' ==> |digits| == width)
    ensures Padded(Value(digits), width) == digits
  {
    PaddedValue(digits);
    assert |Decimal(Value(digits))| < |digits| ==> Padded(Value(digits), |digits|)[0] == '0';
  }

  // ---------------------------------------------------------------------------
  // Trimming
  // ---------------------------------------------------------------------------

  /** Drops trailing zero digits of the fraction. */
  function Reduce(m: nat, k: nat): (r: Fixed)
    ensures r.scale == 0 || r.mantissa % 10 != 0
    decreases k
  {
    if k > 0 && m % 10 == 0 then Reduce(m / 10, k - 1) else Fixed(m, k)
  }

  lemma PointSnoc(s: string, k: nat, last: char)
    requires k <= |s|
    ensures Point(s + [last], k + 1) == Point(s, k) + [last]
    ensures k == 0 ==> Point(s, k) == s + ['.']
  {
  }

  lemma PaddedTen(m: nat, width: nat)
    requires width > 0
    ensures Padded(10 * m, width + 1) == Padded(m, width) + ['0']
  {
    PaddedSnoc(10 * m, width);
  }

  /** A zero at the end of the fraction is one more character, and the last one takes the point with it. */
  lemma PrintZero(m: nat, k: nat)
    ensures Print(10 * m, k + 1) == Print(m, k) + (if k == 0 then ".0" else "0")
  {
    PaddedTen(m, k + 1);
    PointSnoc(Padded(m, k + 1), k, '0');
    assert Print(10 * m, k + 1) == Point(Padded(m, k + 1), k) + ['0'];
  }

  lemma TrimSnoc(s: string, c: char, last: char)
    ensures TrimEnd(s + [last], c) == if last == c then TrimEnd(s, c) else s + [last]
  {
    assert (s + [last])[..|s|] == s;
  }

  function TrimNumeral(s: string): string {
    TrimEnd(TrimEnd(s, '0'), '.')
  }

  /** The last character of a numeral is the last digit of its mantissa. */
  lemma PrintLast(m: nat, k: nat)
    ensures Print(m, k) != [] && Print(m, k)[|Print(m, k)| - 1] == DigitChar(m % 10)
  {
    if k > 0 {
      PaddedSnoc(m, k);
    }
  }

  lemma TrimLastDecimal(n: nat)
    ensures TrimNumeral(Print(n, 0) + ".0") == Print(n, 0)
  {
    var s := Print(n, 0);
    assert s + ".0" == (s + ['.']) + ['0'];
    TrimSnoc(s + ['.'], '0', '0');
    TrimSnoc(s, '0', '.');
    TrimSnoc(s, '.', '.');
    PrintLast(n, 0);
    assert TrimEnd(s, '.') == s;
  }

  lemma TrimZeroDecimal(n: nat, k: nat)
    requires k > 0
    ensures TrimNumeral(Print(n, k) + "0") == TrimNumeral(Print(n, k))
  {
    TrimSnoc(Print(n, k), '0', '0');
  }

  lemma NothingToTrim(m: nat, k: nat)
    requires m % 10 != 0
    ensures TrimNumeral(Print(m, k)) == Print(m, k)
  {
    PrintLast(m, k);
    EndsInNonzero(Print(m, k), m % 10);
  }

  lemma EndsInNonzero(s: string, d: nat)
    requires 0 < d < 10 && s != [] && s[|s| - 1] == DigitChar(d)
    ensures TrimNumeral(s) == s
  {
  }

  lemma TrimZero(n: nat, k: nat)
    ensures TrimNumeral(Print(10 * n, k + 1)) == if k == 0 then Print(n, 0) else TrimNumeral(Print(n, k))
  {
    PrintZero(n, k);
    if k == 0 {
      TrimLastDecimal(n);
    } else {
      TrimZeroDecimal(n, k);
    }
  }

  /** Trimming a numeral with decimals gives the numeral of the reduced number. */
  lemma {:induction false} TrimIsReduce(m: nat, k: nat)
    requires k > 0
    ensures TrimNumeral(Print(m, k)) == Print(Reduce(m, k).mantissa, Reduce(m, k).scale)
    decreases k
  {
    if m % 10 != 0 {
      NothingToTrim(m, k);
    } else {
      var n := m / 10;
      assert m == 10 * n && Reduce(m, k) == Reduce(n, k - 1);
      TrimZero(n, k - 1);
      if k > 1 {
        TrimIsReduce(n, k - 1);
      }
    }
  }

  lemma TrimmedPrints(amount: nat, decimals: nat)
    requires amount <= U64_MAX && decimals > 0
    ensures RealNumberStringTrimmed(TokenAmountToUiAmount(amount, decimals))
         == Print(Reduce(amount, decimals).mantissa, Reduce(amount, decimals).scale)
  {
    PrintsAmount(amount, decimals);
    TrimIsReduce(amount, decimals);
  }

  function Pow10(n: nat): nat {
    if n == 0 then 1 else 10 * Pow10(n - 1)
  }

  /** m * 10^e, by repeated multiplication. */
  function Up(m: nat, e: nat): nat {
    if e == 0 then m else 10 * Up(m, e - 1)
  }

  lemma {:induction false} UpIsProduct(m: nat, e: nat)
    ensures Up(m, e) == m * Pow10(e)
    decreases e
  {
    if e > 0 {
      UpIsProduct(m, e - 1);
      assert m * (10 * Pow10(e - 1)) == 10 * (m * Pow10(e - 1));
    }
  }

  ghost predicate SameValue(a: Fixed, b: Fixed) {
    a.mantissa * Pow10(b.scale) == b.mantissa * Pow10(a.scale)
  }

  lemma {:induction false} UpReduce(m: nat, k: nat)
    ensures Reduce(m, k).scale <= k && m == Up(Reduce(m, k).mantissa, k - Reduce(m, k).scale)
    decreases k
  {
    if k > 0 && m % 10 == 0 {
      UpReduce(m / 10, k - 1);
    }
  }

  lemma {:induction false} UpAdd(m: nat, d: nat, e: nat)
    ensures Up(Up(m, d), e) == Up(m, d + e)
    decreases e
  {
    if e > 0 {
      UpAdd(m, d, e - 1);
    }
  }

  /** Every numeral of the same value is the reduced one with zeros appended. */
  lemma {:induction false} SameValueIsUp(n: nat, j: nat, m: nat, k: nat)
    requires Up(n, k) == Up(m, j) && (k == 0 || m % 10 != 0)
    ensures k <= j && n == Up(m, j - k)
    decreases k
  {
    if k > 0 {
      NotFewerDecimals(n, j, m, k);
      SameValueIsUp(n, j - 1, m, k - 1);
    }
  }

  lemma NotFewerDecimals(n: nat, j: nat, m: nat, k: nat)
    requires Up(n, k) == Up(m, j) && k > 0 && m % 10 != 0
    ensures j > 0
  {
    MultipleOfTen(Up(n, k - 1));
  }

  lemma MultipleOfTen(x: nat)
    ensures 10 * x % 10 == 0
  {
  }

  lemma {:induction false} PrintUp(m: nat, k: nat, e: nat)
    ensures |Print(Up(m, e), k + e)| >= |Print(m, k)| + e
    decreases e
  {
    if e > 0 {
      PrintUp(m, k, e - 1);
      PrintZero(Up(m, e - 1), k + e - 1);
    }
  }

  lemma ReduceKeepsValue(m: nat, k: nat)
    ensures SameValue(Reduce(m, k), Fixed(m, k))
  {
    var r := Reduce(m, k);
    UpReduce(m, k);
    UpIsProduct(r.mantissa, k);
    UpIsProduct(m, r.scale);
    UpAdd(r.mantissa, k - r.scale, r.scale);
  }

  /** With decimals, trimming keeps the value and gives a canonical numeral. */
  lemma TrimmedKeepsValue(amount: nat, decimals: nat)
    requires amount <= U64_MAX && decimals > 0
    ensures var trimmed := RealNumberStringTrimmed(TokenAmountToUiAmount(amount, decimals));
            Canonical(trimmed) && SameValue(Read(trimmed).value, Fixed(amount, decimals))
  {
    TrimmedPrints(amount, decimals);
    ReadPrint(Reduce(amount, decimals).mantissa, Reduce(amount, decimals).scale);
    ReduceKeepsValue(amount, decimals);
  }

  /** It is the unique shortest canonical numeral of that value. */
  lemma TrimmedIsShortest(amount: nat, decimals: nat, other: string)
    requires amount <= U64_MAX && decimals > 0
    requires Canonical(other) && SameValue(Read(other).value, Fixed(amount, decimals))
    ensures var trimmed := RealNumberStringTrimmed(TokenAmountToUiAmount(amount, decimals));
            |trimmed| <= |other| && (|trimmed| == |other| ==> trimmed == other)
  {
    TrimmedPrints(amount, decimals);
    PrintRead(other);
    ShortestPrint(amount, decimals, Read(other).value);
  }

  lemma ShortestPrint(amount: nat, decimals: nat, o: Fixed)
    requires SameValue(o, Fixed(amount, decimals))
    ensures var r := Reduce(amount, decimals);
            var shortest, other := Print(r.mantissa, r.scale), Print(o.mantissa, o.scale);
            |shortest| <= |other| && (|shortest| == |other| ==> shortest == other)
  {
    var r := Reduce(amount, decimals);
    ReducedMatches(amount, decimals, o);
    var e := o.scale - r.scale;
    PrintUp(r.mantissa, r.scale, e);
    assert o.mantissa == Up(r.mantissa, e) && o.scale == r.scale + e;
    if e == 0 {
      assert o == r;
    }
  }

  lemma ReducedMatches(amount: nat, decimals: nat, o: Fixed)
    requires SameValue(o, Fixed(amount, decimals))
    ensures var r := Reduce(amount, decimals);
            r.scale <= o.scale && o.mantissa == Up(r.mantissa, o.scale - r.scale)
  {
    var r := Reduce(amount, decimals);
    var e := decimals - r.scale;
    UpReduce(amount, decimals);
    UpIsProduct(o.mantissa, decimals);
    UpIsProduct(amount, o.scale);
    UpAdd(r.mantissa, e, o.scale);
    UpAdd(o.mantissa, r.scale, e);
    UpAdd(r.mantissa, o.scale, e);
    UpInjective(Up(o.mantissa, r.scale), Up(r.mantissa, o.scale), e);
    SameValueIsUp(o.mantissa, o.scale, r.mantissa, r.scale);
  }

  lemma {:induction false} UpInjective(a: nat, b: nat, e: nat)
    requires Up(a, e) == Up(b, e)
    ensures a == b
    decreases e
  {
    if e > 0 {
      UpInjective(a, b, e - 1);
    }
  }

  /** Without decimals, trimming strips zeros of the integer itself: it is harmless only if there are none. */
  lemma TrimmedWithoutDecimalsIff(amount: nat)
    ensures Read(RealNumberStringTrimmed(TokenAmountToUiAmount(amount, 0))) == Some(Fixed(amount, 0))
       <==> amount % 10 != 0
  {
    PrintLast(amount, 0);
    if amount % 10 != 0 {
      ReadPrint(amount, 0);
    } else {
      ShorterAfterTrim(Decimal(amount));
      ShorterNumeralDiffers(TrimNumeral(Decimal(amount)), amount);
    }
  }

  /** A hundred tokens without decimals are shown as one. */
  lemma HundredTrimsToOne()
    ensures RealNumberString(TokenAmountToUiAmount(100, 0)) == "100"
    ensures RealNumberStringTrimmed(TokenAmountToUiAmount(100, 0)) == "1"
  {
    assert Decimal(1) == "1" && Decimal(10) == "10" && Decimal(100) == "100";
    assert "100"[..2] == "10" && "10"[..1] == "1";
    assert TrimEnd("1", '0') == "1" && TrimEnd("10", '0') == "1" && TrimEnd("100", '0') == "1";
  }

  lemma {:induction false} TrimShortens(s: string, c: char)
    ensures |TrimEnd(s, c)| <= |s| && TrimEnd(s, c) == s[..|TrimEnd(s, c)|]
    decreases |s|
  {
    if s != [] && s[|s| - 1] == c {
      TrimShortens(s[..|s| - 1], c);
    }
  }

  lemma ShorterAfterTrim(s: string)
    requires s != [] && s[|s| - 1] == '0' && AllDigits(s)
    ensures |TrimNumeral(s)| < |s| && AllDigits(TrimNumeral(s))
  {
    TrimShortens(s[..|s| - 1], '0');
    TrimShortens(s, '0');
    TrimShortens(TrimEnd(s, '0'), '.');
  }

  /** A digit string shorter than the decimal form of a number does not denote it. */
  lemma ShorterNumeralDiffers(s: string, n: nat)
    requires AllDigits(s) && |s| < |Decimal(n)|
    ensures Read(s) != Some(Fixed(n, 0))
  {
    if s != [] {
      ReadWhole(s);
      PaddedValue(s);
      assert |Decimal(Value(s))| <= |s|;
    }
  }
}
