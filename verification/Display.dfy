/** Amounts as text: the integer printer over a 20-byte buffer, the balance text of a login and the currency
    formatter. */
module Display {
  import opened Wrappers
  import opened Text

  /** Go's `/` truncates toward zero. */
  function Quot(n: int, d: int): int
    requires d > 0
  {
    if n < 0 then -(-n / d) else n / d
  }

  /** Go's `%` takes the sign of the dividend. */
  function Rem(n: int, d: int): int
    requires d > 0
  {
    n - d * Quot(n, d)
  }

  function Pow10(e: nat): nat {
    if e == 0 then 1 else 10 * Pow10(e - 1)
  }

  lemma Int64Has19Digits()
    ensures INT64_MAX < Pow10(19)
  {
    Thousandfold(0);
    Thousandfold(3);
    Thousandfold(6);
    Thousandfold(9);
    Thousandfold(12);
    Thousandfold(15);
    assert Pow10(18 + 1) == 10 * Pow10(18);
  }

  lemma Thousandfold(e: nat)
    ensures Pow10(e + 3) == 1000 * Pow10(e)
  {
    assert Pow10(e + 3) == 10 * Pow10(e + 2) && Pow10(e + 2) == 10 * Pow10(e + 1);
  }

  /** Negation, which wraps at the least int64. */
  function Negated(n: int): int64 {
    WrapInt64(-n)
  }

  lemma NegatedIs(n: int64)
    ensures n != INT64_MIN ==> Negated(n) == -(n as int)
    ensures n == INT64_MIN ==> Negated(n) == n
  {
  }

  /** The digits still to print come before those already in the buffer. */
  function Remaining(n: nat): string {
    if n == 0 then "" else Digits(n)
  }

  lemma LastDigit(n: nat)
    requires n > 0
    ensures Remaining(n) == Remaining(n / 10) + [DigitChar(n % 10)]
  {
  }

  /** The last digit moves from what remains to the front of the buffer's text. */
  lemma DigitMoves(n: nat, text: string)
    requires n > 0
    ensures Remaining(n) + text == Remaining(n / 10) + ([DigitChar(n % 10)] + text)
  {
    LastDigit(n);
    hide Remaining;
  }

  lemma RoomLeft(m: nat, e: nat)
    requires 0 < m < Pow10(e)
    ensures e > 0 && m / 10 < Pow10(e - 1)
  {
  }

  /** The sign and digits of every int64 but the least. */
  lemma SignAndDigits(n: int64)
    requires n != INT64_MIN
    ensures FormatInt(n)
        == (if n < 0 then "-" else "") + (if n == 0 then "0" else Remaining(if n < 0 then -(n as int) else n))
    ensures ParseInt(FormatInt(n)) == Some(n)
  {
    ParseFormatInt(n);
    hide ParseInt;
    assert n == 0 ==> Digits(n) == "0";
  }

  /** Negating the least int64 leaves it negative: the loop then prints no digit, and the sign stands alone. For every
      other int64 the text is its decimal form and reads back to it; the buffer is never indexed below zero. */
  method Itoa(n: int64) returns (s: string)
    ensures n != INT64_MIN ==> s == FormatInt(n) && ParseInt(s) == Some(n)
    ensures n == INT64_MIN ==> s == "-"
  {
    hide FormatInt, ParseInt, Digits, Pow10, Remaining, Negated;
    NegatedIs(n);
    if n == 0 {
      SignAndDigits(0);
      return "0";
    }
    var neg := n < 0;
    var m: int64 := if neg then Negated(n) else n;
    ghost var all: nat := if m > 0 then m else 0;
    var buf := new char[20](_ => '0');
    var i := 20;
    Int64Has19Digits();
    Finished();
    assert buf[i..] == [];
    while m > 0
      invariant 1 <= i <= 20 && m < Pow10(i - 1)
      invariant m >= 0 ==> Remaining(all) == Remaining(m) + buf[i..]
      invariant m < 0 ==> i == 20
      invariant m < 0 <==> n == INT64_MIN
      decreases m
    {
      RoomLeft(m, i - 1);
      DigitMoves(m, buf[i..]);
      i := i - 1;
      buf[i] := DigitChar(m % 10);
      assert buf[i..] == [DigitChar(m % 10)] + buf[i + 1..];
      m := m / 10;
    }
    if neg {
      i := i - 1;
      buf[i] := '-';
      assert buf[i..] == ['-'] + buf[i + 1..];
    }
    s := buf[i..];
    if n != INT64_MIN {
      SignAndDigits(n);
    }
  }

  lemma Finished()
    ensures Remaining(0) == ""
  {
  }

  method PadLeft(s: string, n: nat, pad: char) returns (r: string)
    ensures r == (if |s| < n then seq(n - |s|, _ => pad) else []) + s
  {
    r := s;
    while |r| < n
      invariant |s| <= |r| <= (if |s| < n then n else |s|)
      invariant r == seq(|r| - |s|, _ => pad) + s
    {
      r := [pad] + r;
    }
  }

  /** At least two digits. */
  function TwoDigits(n: int): string {
    if 0 <= n < 10 then "0" + FormatInt(n) else FormatInt(n)
  }

  /** The hundredths of an amount, without its sign. */
  function Hundredths(cents: int): (n: int)
    ensures 0 <= n < 100
  {
    var frac := Rem(cents, 100);
    if frac < 0 then -frac else frac
  }

  /** What the balance text of a login says. */
  function BalanceText(cents: int, symbol: string): string {
    symbol + " " + (FormatInt(Quot(cents, 100)) + "." + TwoDigits(Hundredths(cents)))
  }

  method FormatBalance(cents: int64, symbol: string) returns (s: string)
    ensures s == BalanceText(cents, symbol)
  {
    var whole := Quot(cents, 100);
    var frac := Rem(cents, 100);
    if frac < 0 {
      frac := -frac;
    }
    hide FormatInt, ParseInt;
    var units := Itoa(whole);
    var rest := Itoa(frac);
    PaddedIs(frac);
    rest := PadLeft(rest, 2, '0');
    hide TwoDigits, Quot;
    s := symbol + " " + (units + "." + rest);
  }

  lemma DigitCount(n: int)
    requires 0 <= n < 100
    ensures |FormatInt(n)| == if n < 10 then 1 else 2
    ensures seq(1, _ => '0') == "0"
  {
    assert n >= 10 ==> |Digits(n / 10)| == 1;
  }

  lemma PaddedIs(n: int)
    requires 0 <= n < 100
    ensures (if |FormatInt(n)| < 2 then seq(2 - |FormatInt(n)|, _ => '0') else []) + FormatInt(n) == TwoDigits(n)
  {
    DigitCount(n);
  }

  /** Whole units, a point and the hundredths. */
  function Unsigned(n: int): string {
    FormatInt(Quot(n, 100)) + "." + TwoDigits(Rem(n, 100))
  }

  /** `currency.Format`: the sign comes first, and negation wraps at the least int64. */
  function Format(cents: int64, symbol: string): string {
    (if cents < 0 then "-" else "") + symbol + " " + Unsigned(if cents < 0 then Negated(cents) else cents)
  }

  // ---- what the texts tell

  /** A sign in front of a symbol cannot be mistaken for the symbol. */
  lemma SignShows(symbol: string, x: string, y: string)
    ensures "-" + symbol + " " + x != symbol + " " + y
  {
    var k := Dashes(symbol);
    assert ("-" + symbol + " " + x)[k] == '-';
    assert (symbol + " " + y)[k] != '-';
  }

  /** How many dashes a text opens with. */
  function Dashes(s: string): (k: nat)
    ensures k <= |s| && (forall i :: 0 <= i < k ==> s[i] == '-') && (k < |s| ==> s[k] != '-')
  {
    if s == "" || s[0] != '-' then 0 else 1 + Dashes(s[1..])
  }

  lemma TwoDigitsShape(n: int)
    requires 0 <= n < 100
    ensures |TwoDigits(n)| == 2
  {
    DigitCount(n);
  }

  /** Whole units, a point and two digits determine both numbers. */
  lemma PartsApart(v: int, f: int, w: int, g: int)
    requires 0 <= f < 100 && 0 <= g < 100
    requires FormatInt(v) + "." + TwoDigits(f) == FormatInt(w) + "." + TwoDigits(g)
    ensures v == w && f == g
  {
    TwoDigitsShape(f);
    TwoDigitsShape(g);
    var a, b := FormatInt(v) + "." + TwoDigits(f), FormatInt(w) + "." + TwoDigits(g);
    assert |a| == |FormatInt(v)| + 3 && |b| == |FormatInt(w)| + 3;
    assert a[..|a| - 3] == FormatInt(v) && b[..|b| - 3] == FormatInt(w);
    assert a[|a| - 2..] == TwoDigits(f) && b[|b| - 2..] == TwoDigits(g);
    FormatIntInjective(v, w);
    TwoDigitsInjective(f, g);
  }

  lemma TwoDigitsInjective(f: int, g: int)
    requires 0 <= f < 100 && 0 <= g < 100 && TwoDigits(f) == TwoDigits(g)
    ensures f == g
  {
    DigitCount(f);
    DigitCount(g);
    if f < 10 && g < 10 {
      assert TwoDigits(f)[1..] == FormatInt(f) && TwoDigits(g)[1..] == FormatInt(g);
      FormatIntInjective(f, g);
    } else if f >= 10 && g >= 10 {
      FormatIntInjective(f, g);
    } else {
      LeadingDigit(f);
      LeadingDigit(g);
    }
  }

  lemma LeadingDigit(n: int)
    requires 0 <= n < 100
    ensures n >= 10 ==> TwoDigits(n)[0] != '0'
    ensures n < 10 ==> TwoDigits(n)[0] == '0'
  {
    ValueOfDigits(n);
  }

  lemma SamePrefix(p: string, x: string, y: string)
    requires p + " " + x == p + " " + y
    ensures x == y
  {
    assert (p + " " + x)[|p| + 1..] == x && (p + " " + y)[|p| + 1..] == y;
  }

  function Magnitude(n: int): nat { if n < 0 then -n else n }

  lemma TwoDigitsValue(n: int)
    requires 0 <= n < 100
    ensures |TwoDigits(n)| == 2 && AllDigits(TwoDigits(n)) && Value(TwoDigits(n)) == n
  {
    DigitCount(n);
    ValueOfDigits(n);
    if n < 10 {
      assert TwoDigits(n)[..1] == "0" && Value("0") == 0;
    }
  }

  lemma PartsShow(m: nat) returns (units: string, hundredths: string)
    ensures Unsigned(m) == units + "." + hundredths && units == FormatInt(m / 100)
    ensures units != "" && AllDigits(units) && |hundredths| == 2 && AllDigits(hundredths)
    ensures Value(units) * 100 + Value(hundredths) == m
  {
    units, hundredths := FormatInt(Quot(m, 100)), TwoDigits(Rem(m, 100));
    ValueOfDigits(m / 100);
    TwoDigitsValue(m % 100);
    hide Value, Digits, TwoDigits;
  }

  lemma UnitsLead(units: string, m: nat)
    requires units == FormatInt(m / 100)
    ensures units != "" && (units[0] == '0' ==> units == "0")
  {
    ValueOfDigits(m / 100);
    assert Digits(0) == "0";
    hide Value, Digits;
  }

  /** The currency text shows the amount: a minus sign if it is below zero, the symbol, a space, the whole units without
      leading zeros, a point and the two digits of the hundredths. */
  lemma {:induction false} FormatShows(cents: int64, symbol: string) returns (units: string, hundredths: string)
    requires cents != INT64_MIN
    ensures Format(cents, symbol) == (if cents < 0 then "-" else "") + symbol + " " + (units + "." + hundredths)
    ensures AllDigits(units) && units != "" && (units[0] == '0' ==> units == "0")
    ensures AllDigits(hundredths) && |hundredths| == 2
    ensures Value(units) * 100 + Value(hundredths) == Magnitude(cents)
  {
    hide Value, Unsigned, FormatInt, AllDigits;
    units, hundredths := PartsShow(Magnitude(cents));
    UnitsLead(units, Magnitude(cents));
  }

  /** The balance text shows it too, with the sign, after the symbol, only of the whole units. */
  lemma {:induction false} BalanceTextShows(cents: int64, symbol: string) returns (units: string, hundredths: string)
    ensures BalanceText(cents, symbol)
            == symbol + " " + (if cents <= -100 then "-" else "") + (units + "." + hundredths)
    ensures AllDigits(units) && units != "" && (units[0] == '0' ==> units == "0")
    ensures AllDigits(hundredths) && |hundredths| == 2
    ensures Value(units) * 100 + Value(hundredths) == Magnitude(cents)
  {
    var sign := if cents <= -100 then "-" else "";
    assert BalanceText(cents, symbol)
        == symbol + " " + (FormatInt(Quot(cents, 100)) + "." + TwoDigits(Hundredths(cents)));
    hide *;
    units, hundredths := PartsShow(Magnitude(cents));
    UnitsLead(units, Magnitude(cents));
    BalanceParts(cents, units, hundredths);
    SignJoins(symbol, sign, units, hundredths);
  }

  lemma SignJoins(symbol: string, sign: string, units: string, rest: string)
    ensures symbol + " " + (sign + units + "." + rest) == symbol + " " + sign + (units + "." + rest)
  {
  }

  lemma BalanceParts(cents: int64, units: string, hundredths: string)
    requires Unsigned(Magnitude(cents)) == units + "." + hundredths && units == FormatInt(Magnitude(cents) / 100)
    ensures FormatInt(Quot(cents, 100)) == (if cents <= -100 then "-" else "") + units
    ensures TwoDigits(Hundredths(cents)) == hundredths
  {
    var m := Magnitude(cents);
    var w: int := m / 100;
    assert Hundredths(cents) == m % 100 == Rem(m, 100);
    assert Quot(cents, 100) == (if cents < 0 then -w else w) && Quot(m, 100) == w;
    hide TwoDigits;
    var t := units + ".";
    assert t + TwoDigits(m % 100) == t + hundredths;
    assert TwoDigits(m % 100) == (t + TwoDigits(m % 100))[|t|..] && hundredths == (t + hundredths)[|t|..];
    assert FormatInt(-w) == (if m >= 100 then "-" else "") + Digits(w);
  }

  /** The login's balance text is the currency text exactly when the amount is not negative, whatever the symbol. */
  lemma BalanceTextIsFormatExactlyWhen(cents: int64, symbol: string)
    ensures BalanceText(cents, symbol) == Format(cents, symbol) <==> cents >= 0
  {
    hide FormatInt, TwoDigits;
    if cents >= 0 {
      assert "" + symbol == symbol;
    } else {
      SignShows(symbol, Unsigned(Negated(cents)), FormatInt(Quot(cents, 100)) + "." + TwoDigits(Hundredths(cents)));
    }
  }

  /** Two amounts have the same balance text exactly when they are equal, or opposite and below one unit: the sign of a
      negative amount shows only in its whole units. */
  lemma SameBalanceTextExactlyWhen(a: int64, b: int64, symbol: string)
    ensures BalanceText(a, symbol) == BalanceText(b, symbol) <==> a == b || (a as int == -(b as int) && -100 < a < 100)
  {
    SamePartsExactlyWhen(a, b);
    hide FormatInt, TwoDigits, Quot;
    var v, w := Quot(a, 100), Quot(b, 100);
    if BalanceText(a, symbol) == BalanceText(b, symbol) {
      SamePrefix(symbol, FormatInt(v) + "." + TwoDigits(Hundredths(a)), FormatInt(w) + "." + TwoDigits(Hundredths(b)));
      PartsApart(v, Hundredths(a), w, Hundredths(b));
    }
  }

  lemma SamePartsExactlyWhen(a: int, b: int)
    ensures Quot(a, 100) == Quot(b, 100) && Hundredths(a) == Hundredths(b) <==> a == b || (a == -b && -100 < a < 100)
  {
  }

  /** The currency text determines the amount. */
  lemma FormatInjective(a: int64, b: int64, symbol: string)
    requires Format(a, symbol) == Format(b, symbol)
    ensures a == b
  {
    FormatOfLeast(a, symbol);
    FormatOfLeast(b, symbol);
    hide Format;
    if a != INT64_MIN && b != INT64_MIN {
      FormatInjectiveAboveLeast(a, b, symbol);
    }
  }

  lemma FormatInjectiveAboveLeast(a: int64, b: int64, symbol: string)
    requires a != INT64_MIN && b != INT64_MIN && Format(a, symbol) == Format(b, symbol)
    ensures a == b
  {
    FormatParts(a, symbol);
    FormatParts(b, symbol);
    hide Format, Unsigned;
    var m, n := Magnitude(a), Magnitude(b);
    SignShows(symbol, Unsigned(m), Unsigned(n));
    SignShows(symbol, Unsigned(n), Unsigned(m));
    SamePrefix(if a < 0 then "-" + symbol else symbol, Unsigned(m), Unsigned(n));
    UnsignedInjective(m, n);
  }

  lemma FormatParts(n: int64, symbol: string)
    requires n != INT64_MIN
    ensures Format(n, symbol) == (if n < 0 then "-" + symbol else symbol) + " " + Unsigned(Magnitude(n))
  {
    hide Unsigned;
    assert "" + symbol == symbol;
  }

  lemma UnsignedInjective(m: nat, n: nat)
    requires Unsigned(m) == Unsigned(n)
    ensures m == n
  {
    hide FormatInt, TwoDigits;
    PartsApart(Quot(m, 100), Rem(m, 100), Quot(n, 100), Rem(n, 100));
  }

  /** The least amount prints a second and a third sign; no other amount has its text. */
  lemma FormatOfLeast(n: int64, symbol: string)
    ensures Format(INT64_MIN, symbol) == "-" + symbol + " " + (FormatInt(Quot(INT64_MIN, 100)) + ".-8")
    ensures n != INT64_MIN ==> Format(n, symbol) != Format(INT64_MIN, symbol)
  {
    hide Unsigned, FormatInt;
    LeastUnsigned();
    var m: int64 := if n < 0 then Negated(n) else n;
    if n >= 0 {
      assert "" + symbol == symbol;
      SignShows(symbol, Unsigned(INT64_MIN), Unsigned(m));
    } else if n != INT64_MIN {
      UnsignedSign(m);
      var p := "-" + symbol + " ";
      assert (p + Unsigned(m))[|p|] != (p + Unsigned(INT64_MIN))[|p|];
    }
  }

  lemma LeastUnsigned()
    ensures Unsigned(INT64_MIN) == FormatInt(Quot(INT64_MIN, 100)) + ".-8"
    ensures |Unsigned(INT64_MIN)| > 0 && Unsigned(INT64_MIN)[0] == '-'
  {
    MinusEight();
    SignOf(Quot(INT64_MIN, 100));
    hide FormatInt, TwoDigits;
  }

  lemma UnsignedSign(n: nat)
    ensures |Unsigned(n)| > 0 && Unsigned(n)[0] != '-'
  {
    SignOf(Quot(n, 100));
    hide FormatInt, TwoDigits;
  }

  lemma MinusEight()
    ensures TwoDigits(-8) == "-8"
  {
    assert Digits(8) == "8";
  }

  lemma SignOf(n: int)
    ensures FormatInt(n)[0] == '-' <==> n < 0
  {
    if n >= 0 {
      assert IsDigit(Digits(n)[0]);
    }
  }
}
