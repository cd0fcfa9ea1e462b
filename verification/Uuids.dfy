/** UUIDs, their canonical text (section 4 of RFC 9562), and the order the ledger locks rows in. */
module Uuids {
  import opened Wrappers
  import opened Text

  type Byte = b: int | 0 <= b < 256

  type Bytes16 = s: seq<Byte> | |s| == 16 witness [0, 0, 0, 0, 0, 0, 0, 0, 0, 0, 0, 0, 0, 0, 0, 0]

  datatype Uuid = Uuid(bytes: Bytes16)

  /** A hyphen precedes bytes 4, 6, 8 and 10. */
  function Hyphen(i: nat): string {
    if i == 4 || i == 6 || i == 8 || i == 10 then "-" else ""
  }

  function Hex2(b: Byte): (s: string)
    ensures |s| == 2
  {
    [HexChar(b / 16), HexChar(b % 16)]
  }

  /** The text of the last |b| bytes of a UUID. */
  function Render(b: seq<Byte>): string
    requires |b| <= 16
  {
    if b == [] then "" else Hyphen(16 - |b|) + (Hex2(b[0]) + Render(b[1..]))
  }

  /** `uuid.UUID.String`: 36 characters in the layout 8-4-4-4-12. */
  function String(u: Uuid): string {
    Render(u.bytes)
  }

  /** Where the two digits of byte i stand in the 36-character text. */
  function Pos(i: nat): nat
    requires i <= 16
  {
    if i < 4 then 2 * i else if i < 6 then 2 * i + 1 else if i < 8 then 2 * i + 2
    else if i < 10 then 2 * i + 3 else 2 * i + 4
  }

  /** Where the text of bytes i..16 begins, hyphen included. */
  function Start(i: nat): nat
    requires i <= 16
  {
    Pos(i) - |Hyphen(i)|
  }

  lemma {:induction false} RenderShape(b: seq<Byte>)
    requires |b| <= 16
    ensures |Render(b)| == 36 - Start(16 - |b|)
  {
    if b != [] {
      RenderShape(b[1..]);
    }
  }

  lemma RenderParts(b: seq<Byte>)
    requires 0 < |b| <= 16
    ensures var h := |Hyphen(16 - |b|)|;
            h + 2 <= |Render(b)| && Render(b)[..h] == Hyphen(16 - |b|) && Render(b)[h..h + 2] == Hex2(b[0])
                && Render(b)[h + 2..] == Render(b[1..])
  {
    var h, x, y := Hyphen(16 - |b|), Hex2(b[0]), Render(b[1..]);
    assert (h + (x + y))[..|h|] == h;
    assert (h + (x + y))[|h|..|h| + 2] == x;
    assert (h + (x + y))[|h| + 2..] == y;
  }

  lemma {:induction false} Suffix(u: Uuid, j: nat)
    requires j <= 16
    ensures |String(u)| == 36
    ensures String(u)[Start(j)..] == Render(u.bytes[j..])
    decreases j
  {
    RenderShape(u.bytes);
    if j == 0 {
      assert u.bytes[0..] == u.bytes;
    } else {
      Suffix(u, j - 1);
      RenderParts(u.bytes[j - 1..]);
      assert u.bytes[j - 1..][1..] == u.bytes[j..];
      var h := |Hyphen(j - 1)| + 2;
      assert Start(j) == Start(j - 1) + h;
      assert String(u)[Start(j)..] == String(u)[Start(j - 1)..][h..];
    }
  }

  lemma DigitsAt(u: Uuid, j: nat)
    requires j < 16
    ensures |String(u)| == 36
    ensures String(u)[Pos(j)] == HexChar(u.bytes[j] / 16) && String(u)[Pos(j) + 1] == HexChar(u.bytes[j] % 16)
    ensures Hyphen(j) == "-" ==> String(u)[Pos(j) - 1] == '-'
  {
    Suffix(u, j);
    RenderParts(u.bytes[j..]);
    var t, h := Render(u.bytes[j..]), |Hyphen(j)|;
    assert t[h] == t[h..h + 2][0] && t[h + 1] == t[h..h + 2][1];
    assert h == 1 ==> t[0] == t[..h][0];
    assert String(u)[Start(j)..][h] == String(u)[Pos(j)];
    assert String(u)[Start(j)..][h + 1] == String(u)[Pos(j) + 1];
  }

  lemma HyphensStand(u: Uuid)
    ensures |String(u)| == 36
    ensures String(u)[8] == String(u)[13] == String(u)[18] == String(u)[23] == '-'
  {
    DigitsAt(u, 4);
    DigitsAt(u, 6);
    DigitsAt(u, 8);
    DigitsAt(u, 10);
  }

  /** Which byte the digit at position k shows. */
  function ByteAt(k: nat): nat
    requires k < 36 && !HyphenPosition(k)
  {
    (if k < 8 then k else if k < 13 then k - 1 else if k < 18 then k - 2 else if k < 23 then k - 3 else k - 4) / 2
  }

  predicate HyphenPosition(k: int) { k == 8 || k == 13 || k == 18 || k == 23 }

  /** The canonical text is 36 characters: hyphens at positions 8, 13, 18 and 23, and hexadecimal digits elsewhere. */
  lemma StringShape(u: Uuid)
    ensures |String(u)| == 36
    ensures forall k :: 0 <= k < 36 ==> (String(u)[k] == '-' <==> HyphenPosition(k))
    ensures forall k :: 0 <= k < 36 ==> (HexValue(String(u)[k]).Some? <==> !HyphenPosition(k))
  {
    HyphensStand(u);
    hide String;
    forall k | 0 <= k < 36 && !HyphenPosition(k)
      ensures HexValue(String(u)[k]).Some? && String(u)[k] != '-'
    {
      var j := ByteAt(k);
      DigitsAt(u, j);
      HexCharValue(u.bytes[j] / 16);
      HexCharValue(u.bytes[j] % 16);
    }
  }

  /** Lower-case digits and hyphens only. */
  lemma StringIsPlain(u: Uuid)
    ensures |String(u)| == 36
    ensures forall k :: 0 <= k < 36 ==> '0' <= String(u)[k] <= '9' || 'a' <= String(u)[k] <= 'f' || String(u)[k] == '-'
  {
    HyphensStand(u);
    hide String;
    forall k | 0 <= k < 36 && !HyphenPosition(k)
      ensures '0' <= String(u)[k] <= '9' || 'a' <= String(u)[k] <= 'f'
    {
      DigitsAt(u, ByteAt(k));
    }
  }

  /** Byte-wise order of two byte strings of equal length. */
  ghost predicate BytesLess(a: seq<Byte>, b: seq<Byte>)
    requires |a| == |b|
  {
    a != [] && (a[0] < b[0] || (a[0] == b[0] && BytesLess(a[1..], b[1..])))
  }

  lemma Hex2Order(a: Byte, b: Byte)
    ensures StrLess(Hex2(a), Hex2(b)) <==> a < b
    ensures Hex2(a) == Hex2(b) <==> a == b
  {
    HexCharOrder(a / 16, b / 16);
    HexCharOrder(a % 16, b % 16);
    var x, y := Hex2(a), Hex2(b);
    assert x == [x[0]] + [x[1]] && y == [y[0]] + [y[1]];
    StrLessConcat([x[0]], [y[0]], [x[1]], [y[1]]);
    StrLessSingle(x[0], y[0]);
    StrLessSingle(x[1], y[1]);
    assert x == y ==> x[0] == y[0] && x[1] == y[1];
  }

  lemma StrLessSingle(c: char, d: char)
    ensures StrLess([c], [d]) <==> c < d
  {
    assert [c][1..] == "" && [d][1..] == "";
  }

  lemma {:induction false} RenderOrder(a: seq<Byte>, b: seq<Byte>)
    requires |a| == |b| <= 16
    ensures StrLess(Render(a), Render(b)) <==> BytesLess(a, b)
    ensures Render(a) == Render(b) <==> a == b
  {
    if a != [] {
      RenderOrder(a[1..], b[1..]);
      Hex2Order(a[0], b[0]);
      var h, x, y := Hyphen(16 - |a|), Render(a[1..]), Render(b[1..]);
      StrLessConcat(Hex2(a[0]), Hex2(b[0]), x, y);
      StrLessConcat(h, h, Hex2(a[0]) + x, Hex2(b[0]) + y);
      StrLessIrreflexive(h);
      RenderParts(a);
      RenderParts(b);
      assert a == [a[0]] + a[1..] && b == [b[0]] + b[1..];
    }
  }

  lemma {:induction false} StrLessIrreflexive(s: string)
    ensures !StrLess(s, s)
  {
    if s != "" {
      StrLessIrreflexive(s[1..]);
    }
  }

  /** The lock order: UUID a sorts before UUID b. */
  predicate Before(a: Uuid, b: Uuid) {
    StrLess(String(a), String(b))
  }

  /** Comparing the printed text is comparing the sixteen bytes. */
  lemma TextOrderIsByteOrder(a: Uuid, b: Uuid)
    ensures Before(a, b) <==> BytesLess(a.bytes, b.bytes)
    ensures String(a) == String(b) <==> a == b
  {
    RenderOrder(a.bytes, b.bytes);
  }

  lemma {:induction false} BytesLessTotal(a: seq<Byte>, b: seq<Byte>, c: seq<Byte>)
    requires |a| == |b| == |c|
    ensures !(BytesLess(a, b) && BytesLess(b, a))
    ensures BytesLess(a, b) || BytesLess(b, a) || a == b
    ensures BytesLess(a, b) && BytesLess(b, c) ==> BytesLess(a, c)
  {
    if a != [] {
      BytesLessTotal(a[1..], b[1..], c[1..]);
      assert a == [a[0]] + a[1..] && b == [b[0]] + b[1..];
    }
  }

  /** The lock order is a strict total order on UUIDs. */
  lemma LockOrderIsStrictTotal(a: Uuid, b: Uuid, c: Uuid)
    ensures !Before(a, a)
    ensures !(Before(a, b) && Before(b, a))
    ensures a != b ==> Before(a, b) || Before(b, a)
    ensures Before(a, b) && Before(b, c) ==> Before(a, c)
  {
    TextOrderIsByteOrder(a, a);
    TextOrderIsByteOrder(a, b);
    TextOrderIsByteOrder(b, a);
    TextOrderIsByteOrder(b, c);
    TextOrderIsByteOrder(a, c);
    BytesLessTotal(a.bytes, b.bytes, c.bytes);
    BytesLessTotal(a.bytes, a.bytes, a.bytes);
  }

  // ---- parsing

  /** Reads the two digits at position p; both must be hexadecimal. */
  function ReadByte(s: string, p: nat): (r: Option<Byte>)
    requires p + 1 < |s|
  {
    match (HexValue(s[p]), HexValue(s[p + 1]))
    case (Some(h), Some(l)) => Some(16 * h + l)
    case _ => None
  }

  /** The sixteen bytes of a 36-character text, or of 32 bare digits. */
  function ReadBytes(s: string, bare: bool): (r: Option<Bytes16>)
    requires |s| >= (if bare then 32 else 36)
  {
    if forall i :: 0 <= i < 16 ==> ReadByte(s, if bare then 2 * i else Pos(i)).Some? then
      var b := seq<Byte>(16, i requires 0 <= i < 16 => ReadByte(s, if bare then 2 * i else Pos(i)).value);
      Some(b)
    else None
  }

  function LowerAscii(c: char): char {
    if 'A' <= c <= 'Z' then c + ('a' - 'A') else c
  }

  predicate IsUrnPrefix(s: string)
    requires |s| >= 9
  {
    var p := "urn:uuid:";
    forall i :: 0 <= i < 9 ==> LowerAscii(s[i]) == p[i]
  }

  /** `uuid.Parse`: the canonical text, the same with a URN prefix, the same between any two
      characters (braces by convention), or 32 bare digits. Digits of either case. */
  function Parse(s: string): (r: Option<Uuid>) {
    if |s| == 32 then
      match ReadBytes(s, true) case Some(b) => Some(Uuid(b)) case None => None
    else if |s| == 36 then ParseCanonical(s)
    else if |s| == 45 && IsUrnPrefix(s) then ParseCanonical(s[9..])
    else if |s| == 38 then ParseCanonical(s[1..])
    else None
  }

  function ParseCanonical(s: string): (r: Option<Uuid>)
    requires |s| >= 36
  {
    if s[8] != '-' || s[13] != '-' || s[18] != '-' || s[23] != '-' then None
    else match ReadBytes(s, false) case Some(b) => Some(Uuid(b)) case None => None
  }

  lemma ReadsPair(s: string, p: nat, b: Byte)
    requires p + 1 < |s| && s[p] == HexChar(b / 16) && s[p + 1] == HexChar(b % 16)
    ensures ReadByte(s, p) == Some(b)
  {
    HexCharValue(b / 16);
    HexCharValue(b % 16);
  }

  lemma ReadsString(u: Uuid)
    ensures |String(u)| == 36
    ensures ReadBytes(String(u), false) == Some(u.bytes)
  {
    RenderShape(u.bytes);
    var s := String(u);
    forall j | 0 <= j < 16
      ensures ReadByte(s, Pos(j)) == Some(u.bytes[j])
    {
      DigitsAt(u, j);
      ReadsPair(s, Pos(j), u.bytes[j]);
    }
    assert ReadBytes(s, false).value == u.bytes;
  }

  lemma LowerHex(c: char)
    ensures HexValue(c) == HexValue(LowerAscii(c))
    ensures HexValue(c).Some? ==> LowerAscii(c) == HexChar(HexValue(c).value)
  {
  }

  lemma ReadsExactlyWhen(s: string, p: nat, b: Byte)
    requires p + 1 < |s|
    ensures ReadByte(s, p) == Some(b)
            <==> LowerAscii(s[p]) == HexChar(b / 16) && LowerAscii(s[p + 1]) == HexChar(b % 16)
  {
    LowerHex(s[p]);
    LowerHex(s[p + 1]);
    HexCharValue(b / 16);
    HexCharValue(b % 16);
  }

  /** Which 36-character texts are read as a UUID: its own text, with letters of either case. */
  lemma {:induction false} ParseExactlyWhen(s: string, u: Uuid)
    requires |s| == 36
    ensures |String(u)| == 36
    ensures Parse(s) == Some(u) <==> forall k :: 0 <= k < 36 ==> LowerAscii(s[k]) == String(u)[k]
  {
    HyphensStand(u);
    hide String;
    forall j | 0 <= j < 16
      ensures ReadByte(s, Pos(j)) == Some(u.bytes[j])
              <==> LowerAscii(s[Pos(j)]) == String(u)[Pos(j)] && LowerAscii(s[Pos(j) + 1]) == String(u)[Pos(j) + 1]
    {
      DigitsAt(u, j);
      ReadsExactlyWhen(s, Pos(j), u.bytes[j]);
    }
    hide ReadByte;
    if Parse(s) == Some(u) {
      forall k | 0 <= k < 36
        ensures LowerAscii(s[k]) == String(u)[k]
      {
        if !HyphenPosition(k) {
          var j := ByteAt(k);
          assert ReadByte(s, Pos(j)) == Some(u.bytes[j]);
        }
      }
    }
    if forall k :: 0 <= k < 36 ==> LowerAscii(s[k]) == String(u)[k] {
      assert forall j :: 0 <= j < 16 ==> ReadByte(s, Pos(j)) == Some(u.bytes[j]);
      assert ReadBytes(s, false).value == u.bytes;
    }
  }

  lemma ParseFound(s: string, b: Bytes16)
    requires |s| == 36 && s[8] == s[13] == s[18] == s[23] == '-'
    requires ReadBytes(s, false) == Some(b)
    ensures Parse(s) == Some(Uuid(b))
  {
  }

  /** Every UUID is read back from its own text. */
  lemma ParseString(u: Uuid)
    ensures Parse(String(u)) == Some(u)
  {
    HyphensStand(u);
    ReadsString(u);
    ParseFound(String(u), u.bytes);
  }
}
