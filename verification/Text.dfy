/** Go strings, as sequences of byte-valued characters, and the number text the program prints and parses. */
module Text {
  import opened Wrappers

  /** A byte of a Go string. */
  predicate IsByte(c: char) { c < 256 as char }

  predicate AllBytes(s: string) { forall i :: 0 <= i < |s| ==> IsByte(s[i]) }

  type GoString = s: string | AllBytes(s)

  const INT64_MAX: int := 0x7fff_ffff_ffff_ffff
  const INT64_MIN: int := -0x8000_0000_0000_0000

  type int64 = n: int | INT64_MIN <= n <= INT64_MAX

  /** Two's complement: the int64 with the same low 64 bits. */
  function WrapInt64(n: int): int64 {
    (n - INT64_MIN) % 0x1_0000_0000_0000_0000 + INT64_MIN
  }

  /** Go's `<` on strings: byte-wise lexicographic. */
  predicate StrLess(a: string, b: string) {
    b != "" && (a == "" || a[0] < b[0] || (a[0] == b[0] && StrLess(a[1..], b[1..])))
  }

  /** Comparing two texts that open with parts of equal length: those parts decide unless they are equal. */
  lemma {:induction false} StrLessConcat(x: string, y: string, s: string, t: string)
    requires |x| == |y|
    ensures StrLess(x + s, y + t) <==> StrLess(x, y) || (x == y && StrLess(s, t))
  {
    if x == "" {
      assert x + s == s && y + t == t;
    } else {
      StrLessConcat(x[1..], y[1..], s, t);
      assert (x + s)[1..] == x[1..] + s && (y + t)[1..] == y[1..] + t;
      assert x == y <==> x[0] == y[0] && x[1..] == y[1..] by {
        assert x == [x[0]] + x[1..] && y == [y[0]] + y[1..];
      }
    }
  }

  /** Opening parts of equal length can be told apart from what follows them. */
  lemma ConcatSplit(a: string, b: string, x: string, y: string)
    requires |a| == |b| && a + x == b + y
    ensures a == b && x == y
  {
    assert a == (a + x)[..|a|] && b == (b + y)[..|b|];
    assert x == (a + x)[|a|..] && y == (b + y)[|b|..];
  }

  // ---- decimal digits

  predicate IsDigit(c: char) { '0' <= c <= '9' }

  function DigitChar(d: int): (c: char)
    requires 0 <= d < 10
    ensures IsDigit(c)
  {
    '0' + d as char
  }

  function DigitValue(c: char): (d: int)
    requires IsDigit(c)
    ensures 0 <= d < 10
  {
    (c - '0') as int
  }

  predicate AllDigits(s: string) { forall i :: 0 <= i < |s| ==> IsDigit(s[i]) }

  /** The decimal digits of a natural number, most significant first. */
  function Digits(n: nat): (s: string)
    ensures |s| > 0 && AllDigits(s)
  {
    if n < 10 then [DigitChar(n)] else Digits(n / 10) + [DigitChar(n % 10)]
  }

  /** The number a run of digits denotes. */
  function Value(s: string): (n: nat)
    requires AllDigits(s)
  {
    if s == "" then 0 else Value(s[..|s| - 1]) * 10 + DigitValue(s[|s| - 1])
  }

  lemma {:induction false} ValueOfDigits(n: nat)
    ensures Value(Digits(n)) == n
    ensures Digits(n)[0] == '0' <==> n == 0
  {
    if n >= 10 {
      ValueOfDigits(n / 10);
      var s := Digits(n / 10);
      assert (s + [DigitChar(n % 10)])[..|s|] == s;
    }
  }

  /** `strconv.FormatInt(n, 10)` and the `%d` verb. */
  function FormatInt(n: int): (s: string)
    ensures |s| > 0
    ensures forall i :: 0 <= i < |s| ==> IsDigit(s[i]) || s[i] == '-'
  {
    if n < 0 then "-" + Digits(-n) else Digits(n)
  }

  /** `strconv.ParseInt(s, 10, 64)`: an optional sign, then digits only, within the 64-bit range. */
  function ParseInt(s: string): (r: Option<int>)
    ensures r.Some? ==> INT64_MIN <= r.value <= INT64_MAX
  {
    var body := if s != "" && (s[0] == '+' || s[0] == '-') then s[1..] else s;
    if body == "" || !AllDigits(body) then None
    else
      var n: int := if s[0] == '-' then -(Value(body) as int) else Value(body);
      if INT64_MIN <= n <= INT64_MAX then Some(n) else None
  }

  /** Every 64-bit number is read back from its own text. */
  lemma ParseFormatInt(n: int)
    requires INT64_MIN <= n <= INT64_MAX
    ensures ParseInt(FormatInt(n)) == Some(n)
  {
    var m: int := if n < 0 then -n else n;
    ValueOfDigits(m);
    if n < 0 {
      assert FormatInt(n)[1..] == Digits(m);
    } else {
      assert IsDigit(Digits(m)[0]);
    }
  }

  /** Which texts are read as numbers: an optional sign and at least one digit, nothing else, when the number they
      denote is an int64; it is then the number read. */
  lemma ParseIntExactlyWhen(s: string, n: int)
    ensures ParseInt(s) == Some(n)
            <==> INT64_MIN <= n <= INT64_MAX
                 && exists digits: string ::
                      && digits != "" && AllDigits(digits)
                      && (((s == digits || s == "+" + digits) && n == Value(digits))
                          || (s == "-" + digits && n == -(Value(digits) as int)))
  {
    var body := if s != "" && (s[0] == '+' || s[0] == '-') then s[1..] else s;
    if ParseInt(s) == Some(n) {
      assert s == body || s == "+" + body || s == "-" + body;
    }
    forall digits: string | digits != "" && AllDigits(digits)
      ensures s == "+" + digits || s == "-" + digits ==> s[1..] == digits
      ensures s == digits ==> IsDigit(s[0])
    {
      assert IsDigit(digits[0]);
    }
    hide Value;
  }

  lemma FormatIntInjective(m: int, n: int)
    requires FormatInt(m) == FormatInt(n)
    ensures m == n
  {
    var p := if m < 0 then -m else m;
    var q := if n < 0 then -n else n;
    ValueOfDigits(p);
    ValueOfDigits(q);
    assert IsDigit(Digits(p)[0]) && IsDigit(Digits(q)[0]);
    assert m < 0 ==> FormatInt(m)[1..] == Digits(p);
    assert n < 0 ==> FormatInt(n)[1..] == Digits(q);
  }

  // ---- hexadecimal digits

  /** Lower-case hexadecimal digit, as `encoding/hex` and the UUID printer write it. */
  function HexChar(v: int): (c: char)
    requires 0 <= v < 16
    ensures IsByte(c) && ('0' <= c <= '9' || 'a' <= c <= 'f')
  {
    if v < 10 then '0' + v as char else 'a' + (v - 10) as char
  }

  /** The value of a hexadecimal digit of either case. */
  function HexValue(c: char): (v: Option<int>)
    ensures v.Some? ==> 0 <= v.value < 16
  {
    if '0' <= c <= '9' then Some((c - '0') as int)
    else if 'a' <= c <= 'f' then Some((c - 'a') as int + 10)
    else if 'A' <= c <= 'F' then Some((c - 'A') as int + 10)
    else None
  }

  lemma HexCharValue(v: int)
    requires 0 <= v < 16
    ensures HexValue(HexChar(v)) == Some(v)
  {
  }

  /** Digit order is value order, because '0'..'9' sort before 'a'..'f'. */
  lemma HexCharOrder(v: int, w: int)
    requires 0 <= v < 16 && 0 <= w < 16
    ensures HexChar(v) < HexChar(w) <==> v < w
    ensures HexChar(v) == HexChar(w) <==> v == w
  {
  }
}
