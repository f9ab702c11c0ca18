/** Decimal printing and parsing of token amounts (`lib.rs`). */
module UiAmount {
  import opened Bytes
  import opened Common

  // ------------------------------------------------------------------ decimal strings

  predicate IsDigit(c: char) {
    '0' <= c <= '9'
  }

  predicate AllDigits(s: string) {
    forall i :: 0 <= i < |s| ==> IsDigit(s[i])
  }

  function DigitChar(d: nat): (c: char)
    requires d < 10
    ensures IsDigit(c) && DigitValue(c) == d
  {
    '0' + d as char
  }

  function DigitValue(c: char): nat {
    if IsDigit(c) then (c - '0') as nat else 0
  }

  function Pow10(k: nat): (p: nat)
    ensures p > 0
  {
    if k == 0 then 1 else 10 * Pow10(k - 1)
  }

  function Value(s: string): nat {
    if s == "" then 0 else 10 * Value(s[..|s| - 1]) + DigitValue(s[|s| - 1])
  }

  /** The shortest decimal representation. */
  function Digits(n: nat): (s: string)
    ensures s != "" && AllDigits(s) && Value(s) == n
  {
    if n < 10 then
      var s := [DigitChar(n)];
      assert s[..0] == "";
      s
    else
      var front := Digits(n / 10);
      var s := front + [DigitChar(n % 10)];
      assert s[..|s| - 1] == front;
      s
  }

  function ZeroDigits(n: nat): (s: string)
    ensures |s| == n && AllDigits(s) && forall i :: 0 <= i < n ==> s[i] == '0'
  {
    seq(n, _ => '0')
  }

  /** `trim_end_matches(c)` */
  function TrimEnd(s: string, c: char): (r: string)
    ensures r <= s && (r != "" ==> r[|r| - 1] != c) && forall i :: |r| <= i < |s| ==> s[i] == c
  {
    if s != "" && s[|s| - 1] == c then TrimEnd(s[..|s| - 1], c) else s
  }

  /** `split('.')` */
  function Split(s: string): (parts: seq<string>)
    ensures parts != [] && forall p :: p in parts ==> '.' !in p
  {
    if '.' !in s then [s]
    else
      var i := FirstDot(s);
      [s[..i]] + Split(s[i + 1..])
  }

  function FirstDot(s: string): (i: nat)
    requires '.' in s
    ensures i < |s| && s[i] == '.' && '.' !in s[..i] && forall k :: 0 <= k < i ==> s[k] != '.'
  {
    if s[0] == '.' then 0
    else
      assert s == [s[0]] + s[1..];
      var i := 1 + FirstDot(s[1..]);
      assert s[..i] == [s[0]] + s[1..][..i - 1];
      i
  }

  lemma {:induction false} ValueAppend(a: string, b: string)
    ensures Value(a + b) == Value(a) * Pow10(|b|) + Value(b)
  {
    if b == "" {
      assert a + b == a;
    } else {
      var n := |b| - 1;
      ValueAppend(a, b[..n]);
      assert (a + b)[..|a| + n] == a + b[..n];
      TimesTen(Value(a), Pow10(n));
    }
  }

  lemma TimesTen(x: nat, p: nat)
    ensures x * (10 * p) == 10 * (x * p)
  {
  }

  lemma AtLeast(x: nat, p: nat)
    requires p > 0
    ensures x * p >= x
  {
  }

  lemma {:induction false} ValueZeros(n: nat)
    ensures Value(ZeroDigits(n)) == 0
  {
    if n > 0 {
      ValueZeros(n - 1);
      assert ZeroDigits(n)[..n - 1] == ZeroDigits(n - 1);
    }
  }

  /** Trailing zeros of a fraction carry no value once it is scaled to the full number of decimals. */
  lemma TrimKeepsScaledValue(frac: string, decimals: nat)
    requires |frac| <= decimals
    ensures var f := TrimEnd(frac, '0');
            Value(f) * Pow10(decimals - |f|) == Value(frac) * Pow10(decimals - |frac|)
  {
    hide Value, Pow10;
    var f := TrimEnd(frac, '0');
    var z := ZeroDigits(|frac| - |f|);
    assert frac == f + z;
    ValueAppend(f, z);
    ValueZeros(|z|);
    PowSum(|z|, decimals - |frac|);
    MulAssoc(Value(f), Pow10(|z|), Pow10(decimals - |frac|));
  }

  lemma MulAssoc(x: nat, y: nat, z: nat)
    ensures x * (y * z) == x * y * z
  {
  }

  lemma {:induction false} PowSum(a: nat, b: nat)
    ensures Pow10(a + b) == Pow10(a) * Pow10(b)
  {
    if a > 0 {
      PowSum(a - 1, b);
      MulAssoc(10, Pow10(a - 1), Pow10(b));
    }
  }

  // ------------------------------------------------------------------ printing

  /** `amount_to_ui_amount_string` */
  function ToUiString(amount: u64, decimals: u8): string {
    if decimals == 0 then Digits(amount)
    else
      var s := Padded(amount, decimals);
      s[..|s| - decimals] + "." + s[|s| - decimals..]
  }

  /** The digits padded with zeros on the left to one more than the number of decimals. */
  function Padded(amount: u64, decimals: u8): (s: string)
    ensures AllDigits(s) && |s| >= decimals + 1
    ensures Value(s) == amount
  {
    var d := Digits(amount);
    if |d| > decimals then d
    else
      ValueAppend(ZeroDigits(decimals + 1 - |d|), d);
      ValueZeros(decimals + 1 - |d|);
      ZeroDigits(decimals + 1 - |d|) + d
  }

  /** `amount_to_ui_amount_string_trimmed` */
  function ToUiStringTrimmed(amount: u64, decimals: u8): string {
    var s := ToUiString(amount, decimals);
    if decimals > 0 then TrimEnd(TrimEnd(s, '0'), '.') else s
  }

  /** The digits of a number, last one first. */
  method PrintDigits(n: nat) returns (s: string)
    ensures s == Digits(n)
  {
    s := "";
    var rest := n;
    assert Digits(n) == Digits(rest) + s;
    while rest >= 10
      invariant Digits(n) == Digits(rest) + s
    {
      assert Digits(rest) + s == Digits(rest / 10) + ([DigitChar(rest % 10)] + s);
      s := [DigitChar(rest % 10)] + s;
      rest := rest / 10;
    }
    s := [DigitChar(rest)] + s;
  }

  /** Zeros pushed in front up to a width. */
  method PadLeft(d: string, width: nat) returns (s: string)
    ensures s == if |d| >= width then d else ZeroDigits(width - |d|) + d
  {
    s := d;
    ghost var n := 0;
    assert ZeroDigits(0) + d == d;
    while |s| < width
      invariant s == ZeroDigits(n) + d && |s| == n + |d|
      invariant n > 0 ==> |s| <= width
    {
      assert ['0'] + (ZeroDigits(n) + d) == ZeroDigits(n + 1) + d;
      s := ['0'] + s;
      n := n + 1;
    }
  }

  /** `amount_to_ui_amount_string`: padding on the left, then inserting the point. */
  method AmountToUiAmountString(amount: u64, decimals: u8) returns (s: string)
    ensures s == ToUiString(amount, decimals)
  {
    hide Value, Digits;
    s := PrintDigits(amount);
    if decimals > 0 {
      s := PadLeft(s, decimals + 1);
      var at := |s| - decimals;
      s := s[..at] + "." + s[at..];
    }
  }

  method TrimEndMatches(t: string, c: char) returns (s: string)
    ensures s == TrimEnd(t, c)
  {
    s := t;
    while s != "" && s[|s| - 1] == c
      invariant TrimEnd(s, c) == TrimEnd(t, c)
      decreases |s|
    {
      s := s[..|s| - 1];
    }
  }

  method AmountToUiAmountStringTrimmed(amount: u64, decimals: u8) returns (s: string)
    ensures s == ToUiStringTrimmed(amount, decimals)
  {
    s := AmountToUiAmountString(amount, decimals);
    if decimals > 0 {
      s := TrimEndMatches(s, '0');
      s := TrimEndMatches(s, '.');
    }
  }

  // ------------------------------------------------------------------ what printing means

  /** Digits without a superfluous leading zero. */
  predicate Canonical(s: string) {
    s != "" && AllDigits(s) && (|s| == 1 || s[0] != '0')
  }

  lemma {:induction false} DigitsLead(n: nat)
    ensures n > 0 ==> Digits(n)[0] != '0'
    ensures Canonical(Digits(n))
  {
    if n >= 10 {
      DigitsLead(n / 10);
    }
  }

  lemma {:induction false} ValueBelow(s: string)
    ensures Value(s) < Pow10(|s|)
  {
    if s != "" { ValueBelow(s[..|s| - 1]); }
  }

  lemma {:induction false} ValueAbove(s: string)
    requires s != "" && AllDigits(s) && s[0] != '0'
    ensures Value(s) >= Pow10(|s| - 1)
  {
    if |s| > 1 {
      ValueAbove(s[..|s| - 1]);
    } else {
      assert Value(s) == 10 * Value(s[..0]) + DigitValue(s[0]);
    }
  }

  lemma {:induction false} PowMono(a: nat, b: nat)
    requires a <= b
    ensures Pow10(a) <= Pow10(b)
  {
    if a < b { PowMono(a, b - 1); }
  }

  /** Equally many digits with the same value are the same digits. */
  lemma {:induction false} SameDigits(a: string, b: string)
    requires |a| == |b| && AllDigits(a) && AllDigits(b) && Value(a) == Value(b)
    ensures a == b
  {
    hide Value;
    if a != "" {
      var n := |a| - 1;
      LastDigit(a);
      LastDigit(b);
      SameQuotient(Value(a[..n]), DigitValue(a[n]), Value(b[..n]), DigitValue(b[n]));
      SameDigits(a[..n], b[..n]);
      assert a == a[..n] + [a[n]] && b == b[..n] + [b[n]];
    }
  }

  lemma LastDigit(s: string)
    requires s != "" && AllDigits(s)
    ensures Value(s) == 10 * Value(s[..|s| - 1]) + DigitValue(s[|s| - 1]) && DigitValue(s[|s| - 1]) < 10
  {
  }

  lemma SameQuotient(x: nat, d: nat, y: nat, e: nat)
    requires d < 10 && e < 10 && 10 * x + d == 10 * y + e
    ensures x == y && d == e
  {
  }

  /** A canonical whole part and a fraction of the same length leave only one way to write a value. */
  lemma OneWay(whole: string, frac: string, whole': string, frac': string)
    requires Canonical(whole) && Canonical(whole') && AllDigits(frac) && AllDigits(frac') && |frac| == |frac'|
    requires Value(whole + frac) == Value(whole' + frac')
    ensures whole == whole' && frac == frac'
  {
    hide Value, Pow10;
    NotShorter(whole, frac, whole', frac');
    NotShorter(whole', frac', whole, frac);
    SameDigits(whole + frac, whole' + frac');
    assert (whole + frac)[..|whole|] == whole && (whole' + frac')[..|whole|] == whole';
    assert (whole + frac)[|whole|..] == frac && (whole' + frac')[|whole|..] == frac';
  }

  lemma NotShorter(whole: string, frac: string, whole': string, frac': string)
    requires Canonical(whole') && AllDigits(frac') && |frac| == |frac'|
    requires Value(whole + frac) == Value(whole' + frac')
    ensures |whole| >= |whole'| || whole == ""
  {
    hide Value, Pow10;
    if 0 < |whole| < |whole'| {
      ValueBelow(whole + frac);
      ValueAbove(whole' + frac');
      PowMono(|whole + frac|, |whole' + frac'| - 1);
    }
  }

  lemma PaddedCut(amount: u64, decimals: u8)
    requires decimals > 0
    ensures var s := Padded(amount, decimals);
            var at := |s| - decimals;
            && Canonical(s[..at]) && |s[at..]| == decimals && AllDigits(s[at..]) && s[..at] + s[at..] == s
            && ToUiString(amount, decimals) == s[..at] + "." + s[at..]
  {
    DigitsLead(amount);
    var s := Padded(amount, decimals);
    assert s[..|s| - decimals] + s[|s| - decimals..] == s;
  }

  /**
   The padded string is exactly the one way to write the amount: a whole part without superfluous zeros, and as many
   digits behind the point as there are decimals.
   */
  lemma PrintedIff(amount: u64, decimals: u8, whole: string, frac: string)
    requires decimals > 0 && AllDigits(whole) && AllDigits(frac)
    ensures ToUiString(amount, decimals) == whole + "." + frac <==>
              Canonical(whole) && |frac| == decimals && Value(whole + frac) == amount
  {
    hide Value, Padded, ToUiString, Split, FirstDot;
    PaddedCut(amount, decimals);
    var s := Padded(amount, decimals);
    var w, f := s[..|s| - decimals], s[|s| - decimals..];
    assert AllDigits(w);
    if ToUiString(amount, decimals) == whole + "." + frac {
      SplitNumber(w, f);
      SplitNumber(whole, frac);
      assert [w, f][0] == [whole, frac][0] && [w, f][1] == [whole, frac][1];
    }
    if Canonical(whole) && |frac| == decimals && Value(whole + frac) == amount {
      OneWay(whole, frac, w, f);
    }
  }

  /** Without decimals the string is the amount's digits, without superfluous zeros. */
  lemma PrintedWholeIff(amount: u64, s: string)
    ensures ToUiString(amount, 0) == s <==> Canonical(s) && Value(s) == amount
  {
    hide Value, Digits;
    DigitsLead(amount);
    if Canonical(s) && Value(s) == amount {
      assert s + "" == s && Digits(amount) + "" == Digits(amount);
      OneWay(s, "", Digits(amount), "");
    }
  }

  /** The value of digits followed by zeros. */
  lemma ValueBeforeZeros(d: string, n: nat)
    ensures Value(d + ZeroDigits(n)) == Value(d) * Pow10(n)
  {
    ValueAppend(d, ZeroDigits(n));
    ValueZeros(n);
  }

  lemma {:induction false} TrimZeros(f: string, n: nat)
    requires f == "" || f[|f| - 1] != '0'
    ensures TrimEnd(f + ZeroDigits(n), '0') == f
  {
    if n == 0 {
      assert f + ZeroDigits(0) == f;
    } else {
      TrimZeros(f, n - 1);
      assert (f + ZeroDigits(n))[..|f| + n - 1] == f + ZeroDigits(n - 1);
    }
  }

  /** The trimmed string, from the parts of the padded one. */
  lemma TrimmedParts(amount: u64, decimals: u8) returns (w: string, f: string)
    requires decimals > 0
    ensures Canonical(w) && AllDigits(f) && |f| <= decimals && (f != "" ==> f[|f| - 1] != '0')
    ensures ToUiString(amount, decimals) == w + "." + (f + ZeroDigits(decimals - |f|))
    ensures Value(w + f) * Pow10(decimals - |f|) == amount
    ensures ToUiStringTrimmed(amount, decimals) == if f == "" then w else w + "." + f
  {
    hide Value, Pow10, Padded, ToUiString, TrimEnd;
    PaddedCut(amount, decimals);
    var s := Padded(amount, decimals);
    w := s[..|s| - decimals];
    var frac := s[|s| - decimals..];
    f := TrimEnd(frac, '0');
    var n := decimals - |f|;
    assert frac == f + ZeroDigits(n);
    assert w + (f + ZeroDigits(n)) == (w + f) + ZeroDigits(n);
    ValueBeforeZeros(w + f, n);
    TrimPrinted(w, frac);
  }

  /**
   The trimmed string is exactly the one way to write the amount without superfluous zeros at either end: a whole part,
   and a point only before a fraction that does not end in a zero.
   */
  lemma TrimmedIff(amount: u64, decimals: u8, whole: string, f: string)
    requires decimals > 0 && AllDigits(whole) && AllDigits(f)
    ensures ToUiStringTrimmed(amount, decimals) == (if f == "" then whole else whole + "." + f) <==>
              && Canonical(whole) && |f| <= decimals && (f != "" ==> f[|f| - 1] != '0')
              && Value(whole + f) * Pow10(decimals - |f|) == amount
  {
    hide Value, Pow10, ToUiString, ToUiStringTrimmed, Split, FirstDot;
    var w, g := TrimmedParts(amount, decimals);
    var mine := if g == "" then w else w + "." + g;
    var yours := if f == "" then whole else whole + "." + f;
    if mine == yours {
      SamePoint(w, g, whole, f);
    }
    if Canonical(whole) && |f| <= decimals && (f != "" ==> f[|f| - 1] != '0')
       && Value(whole + f) * Pow10(decimals - |f|) == amount {
      OneTrimmedWay(whole, f, w, g, decimals);
    }
  }

  lemma OneTrimmedWay(whole: string, f: string, w: string, g: string, decimals: nat)
    requires Canonical(whole) && Canonical(w) && AllDigits(f) && AllDigits(g) && |f| <= decimals && |g| <= decimals
    requires (f != "" ==> f[|f| - 1] != '0') && (g != "" ==> g[|g| - 1] != '0')
    requires Value(whole + f) * Pow10(decimals - |f|) == Value(w + g) * Pow10(decimals - |g|)
    ensures whole == w && f == g
  {
    hide Value, Pow10, TrimEnd;
    var y, z := ZeroDigits(decimals - |f|), ZeroDigits(decimals - |g|);
    ValueBeforeZeros(whole + f, |y|);
    ValueBeforeZeros(w + g, |z|);
    assert whole + (f + y) == (whole + f) + y && w + (g + z) == (w + g) + z;
    OneWay(whole, f + y, w, g + z);
    TrimZeros(f, |y|);
    TrimZeros(g, |z|);
  }

  /** Where the point stands, if there is one, is determined. */
  lemma SamePoint(w: string, g: string, whole: string, f: string)
    requires AllDigits(w) && AllDigits(g) && AllDigits(whole) && AllDigits(f)
    requires (if g == "" then w else w + "." + g) == (if f == "" then whole else whole + "." + f)
    ensures w == whole && g == f
  {
    hide Split, FirstDot;
    SplitNumber(w, g);
    SplitNumber(whole, f);
    var a, b := if g == "" then [w] else [w, g], if f == "" then [whole] else [whole, f];
    assert a == b;
    assert |a| == |b| && a[0] == b[0] && a[|a| - 1] == b[|b| - 1];
  }

  // ------------------------------------------------------------------ parsing

  /** `str::parse::<u64>`: an optional plus sign, then one or more digits whose value fits. */
  function ParseU64(s: string): Result<u64> {
    var digits := if |s| > 1 && s[0] == '+' then s[1..] else s;
    if digits != "" && AllDigits(digits) && Value(digits) <= U64_MAX then Ok(Value(digits)) else Err(InvalidArgument)
  }

  /** The digit loop, with the multiplication and the addition both checked. */
  method ParseDigits(s: string) returns (r: Result<u64>)
    ensures r == ParseU64(s)
  {
    var digits := if |s| > 1 && s[0] == '+' then s[1..] else s;
    if digits == "" {
      return Err(InvalidArgument);
    }
    var v := 0;
    for i := 0 to |digits|
      invariant AllDigits(digits[..i]) && v == Value(digits[..i]) && v <= U64_MAX
    {
      if !IsDigit(digits[i]) {
        return Err(InvalidArgument);
      }
      assert digits[..i + 1][..i] == digits[..i];
      assert AllDigits(digits[..i + 1]) && Value(digits[..i + 1]) == 10 * v + DigitValue(digits[i]);
      if 10 * v > U64_MAX || 10 * v + DigitValue(digits[i]) > U64_MAX {
        PrefixTooLarge(digits, i + 1);
        return Err(InvalidArgument);
      }
      v := 10 * v + DigitValue(digits[i]);
    }
    assert digits[..|digits|] == digits;
    r := Ok(v);
  }

  lemma PrefixTooLarge(s: string, i: nat)
    requires i <= |s| && Value(s[..i]) > U64_MAX
    ensures Value(s) > U64_MAX
  {
    hide Value, Pow10;
    assert s == s[..i] + s[i..];
    ValueAppend(s[..i], s[i..]);
    AtLeast(Value(s[..i]), Pow10(|s[i..]|));
  }

  /** `try_ui_amount_into_amount` */
  function FromUiString(s: string, decimals: u8): Result<u64> {
    var parts := Split(s);
    var whole := parts[0];
    var frac := TrimEnd(if |parts| > 1 then parts[1] else "", '0');
    if (whole == "" && frac == "") || |parts| > 2 || |frac| > decimals then Err(InvalidArgument)
    else ParseU64(whole + frac + ZeroDigits(decimals - |frac|))
  }

  method TryUiAmountIntoAmount(s: string, decimals: u8) returns (r: Result<u64>)
    ensures r == FromUiString(s, decimals)
  {
    var parts := Split(s);
    var amountStr := parts[0];
    var afterDecimal := TrimEnd(if |parts| > 1 then parts[1] else "", '0');
    if (amountStr == "" && afterDecimal == "") || |parts| > 2 || |afterDecimal| > decimals {
      return Err(InvalidArgument);
    }
    amountStr := amountStr + afterDecimal;
    ghost var front := amountStr;
    for i := 0 to decimals - |afterDecimal|
      invariant amountStr == front + ZeroDigits(i)
    {
      amountStr := amountStr + ['0'];
      assert ZeroDigits(i + 1) == ZeroDigits(i) + ['0'];
    }
    r := ParseDigits(amountStr);
  }

  // ------------------------------------------------------------------ what parsing means

  /** The number denoted by an integer part and a fraction, in units of the last decimal. */
  function Denoted(whole: string, frac: string, decimals: nat): nat
    requires |frac| <= decimals
  {
    Value(whole) * Pow10(decimals) + Value(frac) * Pow10(decimals - |frac|)
  }

  lemma SplitOne(whole: string, frac: string)
    requires '.' !in whole && '.' !in frac
    ensures Split(whole + "." + frac) == [whole, frac] && Split(whole) == [whole]
  {
    var s := whole + "." + frac;
    assert s[|whole|] == '.';
    var i := FirstDot(s);
    assert forall k :: 0 <= k < |whole| ==> s[k] == whole[k] && whole[k] in whole;
    assert s[i + 1..] == frac && s[..i] == whole;
  }

  lemma SplitNumber(whole: string, frac: string)
    requires AllDigits(whole) && AllDigits(frac)
    ensures Split(whole + "." + frac) == [whole, frac] && Split(whole) == [whole]
  {
    SplitOne(whole, frac);
  }

  /**
   For digits only, with or without a point, the parser returns exactly the denoted number (the fraction being
   counted after its trailing zeros are dropped), or an error when there is no digit left, the fraction is too
   long or the number does not fit.
   */
  lemma ParseMeaning(whole: string, frac: string, decimals: u8)
    requires AllDigits(whole) && AllDigits(frac)
    ensures var f := TrimEnd(frac, '0');
            && AllDigits(f)
            && FromUiString(whole + "." + frac, decimals) ==
               (if (whole == "" && f == "") || |f| > decimals || Denoted(whole, f, decimals) > U64_MAX
                then Err(InvalidArgument) else Ok(Denoted(whole, f, decimals)))
            && (frac == "" ==> FromUiString(whole, decimals) == FromUiString(whole + "." + frac, decimals))
  {
    hide Value, Pow10, Split, FirstDot, TrimEnd;
    SplitNumber(whole, frac);
    var f := TrimEnd(frac, '0');
    if |f| <= decimals && !(whole == "" && f == "") {
      DigitsJoined(whole, f, decimals);
    }
    if frac == "" {
      assert TrimEnd(frac, '0') == frac;
    }
  }

  /** A string without its plus sign. */
  function Unsigned(s: string): string {
    if s != "" && s[0] == '+' then s[1..] else s
  }

  /**
   The parser on any string with one point: what stands before the point and the trimmed fraction must together be
   digits behind an optional plus sign (alone, the sign is zero if zeros follow), and the scaled number must fit.
   */
  lemma ParseAny(whole: string, frac: string, decimals: u8)
    requires '.' !in whole && '.' !in frac
    ensures var f := TrimEnd(frac, '0');
            var digits := Unsigned(whole + f);
            FromUiString(whole + "." + frac, decimals) ==
              if whole + f == "" || |f| > decimals || !AllDigits(digits) || (digits == "" && |f| == decimals)
                 || Value(digits) * Pow10(decimals - |f|) > U64_MAX
              then Err(InvalidArgument) else Ok(Value(digits) * Pow10(decimals - |f|))
    ensures FromUiString(whole, decimals) == FromUiString(whole + ".", decimals)
  {
    hide Value, Pow10, Split, TrimEnd;
    SplitOne(whole, frac);
    SplitOne(whole, "");
    assert whole + "." + "" == whole + ".";
    var f := TrimEnd(frac, '0');
    if |f| <= decimals && whole + f != "" {
      ParseJoined(whole + f, decimals - |f|);
    }
  }

  /** Reading a sign and digits with zeros pushed behind. */
  lemma ParseJoined(c: string, n: nat)
    requires c != ""
    ensures var digits := Unsigned(c);
            ParseU64(c + ZeroDigits(n)) ==
              if !AllDigits(digits) || (digits == "" && n == 0) || Value(digits) * Pow10(n) > U64_MAX
              then Err(InvalidArgument) else Ok(Value(digits) * Pow10(n))
  {
    hide Value, Pow10;
    var digits, all := Unsigned(c), c + ZeroDigits(n);
    ValueBeforeZeros(digits, n);
    if c[0] == '+' {
      assert all[1..] == digits + ZeroDigits(n);
      assert |all| == 1 ==> all == "+" && !IsDigit(all[0]);
    }
    AllDigitsThenZeros(digits, n);
  }

  lemma AllDigitsThenZeros(d: string, n: nat)
    ensures AllDigits(d + ZeroDigits(n)) <==> AllDigits(d)
  {
    if AllDigits(d + ZeroDigits(n)) {
      assert forall i :: 0 <= i < |d| ==> d[i] == (d + ZeroDigits(n))[i];
    }
  }

  /** A second point is refused. */
  lemma TwoPointsRefused(a: string, b: string, c: string, decimals: u8)
    ensures FromUiString(a + "." + b + "." + c, decimals) == Err(InvalidArgument)
  {
    SplitCounts(a + "." + b + "." + c);
    DotsAppend(a + "." + b + ".", c);
    DotsAppend(a + "." + b, ".");
    DotsAppend(a + ".", b);
    DotsAppend(a, ".");
  }

  function Dots(s: string): nat {
    if s == "" then 0 else (if s[0] == '.' then 1 else 0) + Dots(s[1..])
  }

  lemma {:induction false} DotsAppend(a: string, b: string)
    ensures Dots(a + b) == Dots(a) + Dots(b)
  {
    if a == "" {
      assert a + b == b;
    } else {
      DotsAppend(a[1..], b);
      assert (a + b)[1..] == a[1..] + b;
    }
  }

  lemma {:induction false} NoDots(s: string)
    requires '.' !in s
    ensures Dots(s) == 0
  {
    if s != "" { NoDots(s[1..]); }
  }

  lemma {:induction false} SplitCounts(s: string)
    ensures |Split(s)| == Dots(s) + 1
    decreases |s|
  {
    hide Dots, FirstDot;
    if '.' !in s {
      NoDots(s);
    } else {
      var i := FirstDot(s);
      SplitCounts(s[i + 1..]);
      CutAtDot(s, i);
    }
  }

  lemma CutAtDot(s: string, i: nat)
    requires i < |s| && s[i] == '.' && '.' !in s[..i]
    ensures Dots(s) == 1 + Dots(s[i + 1..])
  {
    NoDots(s[..i]);
    DotsAppend(s[..i], s[i..]);
    assert s == s[..i] + s[i..] && s[i..][1..] == s[i + 1..];
  }

  /** The joined digits the parser reads denote the number. */
  lemma DigitsJoined(whole: string, f: string, decimals: u8)
    requires AllDigits(whole) && AllDigits(f) && |f| <= decimals && !(whole == "" && f == "")
    ensures ParseU64(whole + f + ZeroDigits(decimals - |f|)) ==
            if Denoted(whole, f, decimals) > U64_MAX then Err(InvalidArgument) else Ok(Denoted(whole, f, decimals))
  {
    hide Value, Pow10;
    var z := ZeroDigits(decimals - |f|);
    ValueAppend(f, z);
    ValueZeros(|z|);
    ValueAppend(whole, f + z);
    var all := whole + f + z;
    assert whole + (f + z) == all;
    assert |all| > 0 && AllDigits(all) && IsDigit(all[0]);
  }

  /** Parsing undoes printing, padded or trimmed, for every amount and every number of decimals. */
  lemma UiRoundTrip(amount: u64, decimals: u8)
    ensures FromUiString(ToUiString(amount, decimals), decimals) == Ok(amount)
    ensures FromUiString(ToUiStringTrimmed(amount, decimals), decimals) == Ok(amount)
  {
    hide Value, Pow10, FromUiString, Padded, TrimEnd, Digits;
    if decimals == 0 {
      var s := Digits(amount);
      ParseMeaning(s, "", 0);
      DenotedWhole(s);
    } else {
      var s := Padded(amount, decimals);
      var at := |s| - decimals;
      var whole, frac := s[..at], s[at..];
      assert s == whole + frac;
      DenotedPrinted(whole, frac, decimals);
      var f := TrimEnd(frac, '0');
      ParseMeaning(whole, frac, decimals);
      TrimPrinted(whole, frac);
      TrimTwice(f, '0');
      ParseMeaning(whole, f, decimals);
    }
  }

  lemma DenotedWhole(s: string)
    ensures TrimEnd("", '0') == "" && Denoted(s, "", 0) == Value(s)
  {
  }

  /** A number cut at its point denotes the number before the cut, with or without its trailing zeros. */
  lemma DenotedPrinted(whole: string, frac: string, decimals: nat)
    requires |frac| == decimals
    ensures Denoted(whole, TrimEnd(frac, '0'), decimals) == Value(whole + frac)
  {
    hide Value;
    ValueAppend(whole, frac);
    TrimKeepsScaledValue(frac, decimals);
  }

  lemma TrimTwice(s: string, c: char)
    requires s == "" || s[|s| - 1] != c
    ensures TrimEnd(s, c) == s
  {
  }

  /** What trimming leaves of a printed number. */
  lemma TrimPrinted(whole: string, frac: string)
    requires whole != "" && AllDigits(whole) && AllDigits(frac)
    ensures var f := TrimEnd(frac, '0');
            TrimEnd(TrimEnd(whole + "." + frac, '0'), '.') == if f == "" then whole else whole + "." + f
  {
    var f := TrimEnd(frac, '0');
    TrimSuffix(whole + ".", frac, '0');
    if f == "" {
      assert whole + "." + "" == whole + ".";
      assert (whole + ".")[..|whole|] == whole;
    }
  }

  lemma {:induction false} TrimSuffix(a: string, b: string, c: char)
    requires a != "" && a[|a| - 1] != c
    ensures TrimEnd(a + b, c) == a + TrimEnd(b, c)
  {
    if b == "" || b[|b| - 1] != c {
      assert b == "" ==> a + b == a;
    } else {
      var n := |b| - 1;
      TrimSuffix(a, b[..n], c);
      assert (a + b)[..|a| + n] == a + b[..n];
    }
  }
}
