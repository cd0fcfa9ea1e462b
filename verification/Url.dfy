/**
 The parts of Go's net/url the payment URIs go through: percent-encoding (section 2.1 of RFC 3986) in form style, with
 '+' for space (section 5 of the WHATWG URL Standard), query strings, and URI splitting.
 */
module Url {
  import opened Wrappers
  import opened Text

  // ---- escaping one query component

  predicate Unreserved(c: char) {
    'a' <= c <= 'z' || 'A' <= c <= 'Z' || '0' <= c <= '9' || c == '-' || c == '_' || c == '.' || c == '~'
  }

  function UpperHex(v: int): (c: char)
    requires 0 <= v < 16
  {
    if v < 10 then '0' + v as char else 'A' + (v - 10) as char
  }

  function EscapeChar(c: char): string
    requires IsByte(c)
  {
    if Unreserved(c) then [c] else if c == ' ' then "+" else ['%', UpperHex(c as int / 16), UpperHex(c as int % 16)]
  }

  /** `url.QueryEscape`. */
  function Escape(s: GoString): string {
    if s == "" then "" else EscapeChar(s[0]) + Escape(s[1..])
  }

  /** `url.QueryUnescape`: fails on a '%' without two hexadecimal digits after it. */
  function Unescape(s: string): Option<string> {
    if s == "" then Some("")
    else if s[0] == '%' then
      if |s| < 3 || HexValue(s[1]).None? || HexValue(s[2]).None? then None
      else Prepend((16 * HexValue(s[1]).value + HexValue(s[2]).value) as char, Unescape(s[3..]))
    else Prepend(if s[0] == '+' then ' ' else s[0], Unescape(s[1..]))
  }

  function Prepend(c: char, rest: Option<string>): Option<string> {
    match rest case Some(t) => Some([c] + t) case None => None
  }

  lemma UpperHexValue(v: int)
    requires 0 <= v < 16
    ensures HexValue(UpperHex(v)) == Some(v)
    ensures Unreserved(UpperHex(v))
  {
  }

  lemma UnescapeOne(c: char, t: string)
    requires IsByte(c)
    ensures Unescape(EscapeChar(c) + t) == Prepend(c, Unescape(t))
  {
    var s := EscapeChar(c) + t;
    if Unreserved(c) || c == ' ' {
      assert s[1..] == t;
    } else {
      UpperHexValue(c as int / 16);
      UpperHexValue(c as int % 16);
      assert s[3..] == t;
    }
  }

  /** Unescaping undoes escaping, for arbitrary bytes. */
  lemma {:induction false} UnescapeEscape(s: GoString)
    ensures Unescape(Escape(s)) == Some(s)
  {
    if s != "" {
      UnescapeEscape(s[1..]);
      UnescapeOne(s[0], Escape(s[1..]));
      assert [s[0]] + s[1..] == s;
    }
  }

  /** How one byte is escaped: a letter, a digit or one of -_.~ stands for itself, a space becomes a plus, and any other
      becomes a percent sign and its two upper-case hexadecimal digits. */
  lemma EscapeOne(c: char)
    requires IsByte(c)
    ensures var plain := 'a' <= c <= 'z' || 'A' <= c <= 'Z' || '0' <= c <= '9' || c in "-_.~";
            && (plain ==> Escape([c]) == [c]) && (c == ' ' ==> Escape([c]) == "+")
            && (!plain && c != ' ' ==>
                  && |Escape([c])| == 3 && Escape([c])[0] == '%'
                  && (forall i :: 1 <= i < 3 ==> '0' <= Escape([c])[i] <= '9' || 'A' <= Escape([c])[i] <= 'F')
                  && HexValue(Escape([c])[1]).Some? && HexValue(Escape([c])[2]).Some?
                  && 16 * HexValue(Escape([c])[1]).value + HexValue(Escape([c])[2]).value == c as int)
  {
    assert [c][1..] == "";
    assert Escape([c]) == EscapeChar(c);
    UpperHexValue(c as int / 16);
    UpperHexValue(c as int % 16);
  }

  /** Bytes are escaped one by one. */
  lemma {:induction false} EscapeJoins(s: GoString, t: GoString)
    ensures Escape(s + t) == Escape(s) + Escape(t)
  {
    hide EscapeChar;
    if s == "" {
      assert s + t == t;
    } else {
      EscapeJoins(s[1..], t);
      assert (s + t)[0] == s[0] && (s + t)[1..] == s[1..] + t;
      EscapeFirst(s + t);
      EscapeFirst(s);
      hide Escape;
      assert EscapeChar(s[0]) + (Escape(s[1..]) + Escape(t)) == (EscapeChar(s[0]) + Escape(s[1..])) + Escape(t);
    }
  }

  lemma EscapeFirst(s: GoString)
    requires s != ""
    ensures Escape(s) == EscapeChar(s[0]) + Escape(s[1..])
  {
    hide EscapeChar;
  }

  lemma {:induction false} EscapePlain(s: GoString)
    requires forall i :: 0 <= i < |s| ==> Unreserved(s[i])
    ensures Escape(s) == s
  {
    if s != "" {
      EscapePlain(s[1..]);
      assert [s[0]] + s[1..] == s;
    }
  }

  /** What escaped text is made of: none of the characters that delimit a URI or a query. */
  predicate Inert(c: char) { Unreserved(c) || c == '+' || c == '%' }

  lemma {:induction false} EscapeInert(s: GoString)
    ensures forall i :: 0 <= i < |Escape(s)| ==> Inert(Escape(s)[i])
  {
    if s != "" {
      EscapeInert(s[1..]);
      UpperHexValue(s[0] as int / 16);
      UpperHexValue(s[0] as int % 16);
    }
  }

  // ---- query strings

  /** Index of the first `c`, or |s|. */
  function Find(s: string, c: char): (i: nat)
    ensures i <= |s| && (i < |s| ==> s[i] == c)
    ensures forall k :: 0 <= k < i ==> s[k] != c
  {
    if s == "" || s[0] == c then 0 else 1 + Find(s[1..], c)
  }

  /** `strings.Cut`: what stands before the first `c`, and after it. */
  function Before(s: string, c: char): string { s[..Find(s, c)] }

  function After(s: string, c: char): string {
    if Find(s, c) < |s| then s[Find(s, c) + 1..] else ""
  }

  lemma CutAt(x: string, c: char, y: string)
    requires c !in x
    ensures Before(x + [c] + y, c) == x && After(x + [c] + y, c) == y
    ensures Before(x, c) == x && After(x, c) == ""
  {
    var s := x + [c] + y;
    assert s[|x|] == c;
    assert forall k :: 0 <= k < |x| ==> s[k] == x[k] && s[k] in x;
    assert Find(s, c) == |x|;
    assert forall k :: 0 <= k < |x| ==> x[k] in x;
    assert s[..|x|] == x && s[|x| + 1..] == y;
  }

  datatype Pair = Pair(key: GoString, value: GoString)

  /** One `key=value` part; parts that hold ';' or do not unescape are dropped. */
  function ParsePart(part: string): seq<(string, string)> {
    if part == "" || ';' in part then []
    else
      match (Unescape(Before(part, '=')), Unescape(After(part, '=')))
      case (Some(k), Some(v)) => [(k, v)]
      case _ => []
  }

  /** `url.ParseQuery` with its error dropped, as `URL.Query` does. */
  function ParseQuery(s: string): seq<(string, string)>
    decreases |s|
  {
    if s == "" then []
    else ParsePart(Before(s, '&')) + ParseQuery(After(s, '&'))
  }

  /** `Values.Get`: the first value under a key, or the empty string. */
  function Get(pairs: seq<(string, string)>, key: string): string {
    if pairs == [] then "" else if pairs[0].0 == key then pairs[0].1 else Get(pairs[1..], key)
  }

  function EncodePair(p: Pair): string { Escape(p.key) + ("=" + Escape(p.value)) }

  /** `Values.Encode` of single-valued pairs already in key order. */
  function Encode(pairs: seq<Pair>): string {
    if pairs == [] then ""
    else if |pairs| == 1 then EncodePair(pairs[0])
    else EncodePair(pairs[0]) + ("&" + Encode(pairs[1..]))
  }

  lemma {:induction false} EncodeJoins(a: seq<Pair>, b: seq<Pair>)
    requires a != [] && b != []
    ensures Encode(a + b) == Encode(a) + "&" + Encode(b)
  {
    hide EncodePair;
    if |a| == 1 {
      assert (a + b)[1..] == b;
    } else {
      assert (a + b)[1..] == a[1..] + b;
      EncodeJoins(a[1..], b);
    }
  }

  function Plain(pairs: seq<Pair>): (r: seq<(string, string)>)
    ensures |r| == |pairs|
    ensures forall i :: 0 <= i < |pairs| ==> r[i] == (pairs[i].key, pairs[i].value)
  {
    if pairs == [] then [] else [(pairs[0].key, pairs[0].value)] + Plain(pairs[1..])
  }

  lemma PairParts(p: Pair)
    ensures ParsePart(EncodePair(p)) == [(p.key, p.value)]
    ensures forall i :: 0 <= i < |EncodePair(p)| ==> Inert(EncodePair(p)[i]) || EncodePair(p)[i] == '='
    ensures EncodePair(p) != ""
  {
    EscapeInert(p.key);
    EscapeInert(p.value);
    UnescapeEscape(p.key);
    UnescapeEscape(p.value);
    hide Escape, Unescape, Find, Before, After;
    var k, v := Escape(p.key), Escape(p.value);
    assert '=' !in k;
    CutAt(k, '=', v);
    assert EncodePair(p) == k + ['='] + v;
    assert ';' !in EncodePair(p);
    hide EncodePair, Inert;
  }

  /** A query string is read back pair by pair. */
  lemma {:induction false} ParseEncode(pairs: seq<Pair>)
    ensures ParseQuery(Encode(pairs)) == Plain(pairs)
    ensures forall i :: 0 <= i < |Encode(pairs)| ==>
        Inert(Encode(pairs)[i]) || Encode(pairs)[i] == '=' || Encode(pairs)[i] == '&'
    ensures pairs != [] ==> Encode(pairs) != ""
  {
    hide EncodePair, ParsePart, Find;
    if |pairs| == 1 {
      PairParts(pairs[0]);
      CutAt(EncodePair(pairs[0]), '&', "");
      assert Encode(pairs) == EncodePair(pairs[0]);
      assert ParseQuery("") == [];
    } else if |pairs| > 1 {
      PairParts(pairs[0]);
      ParseEncode(pairs[1..]);
      CutAt(EncodePair(pairs[0]), '&', Encode(pairs[1..]));
      assert Encode(pairs) == EncodePair(pairs[0]) + ['&'] + Encode(pairs[1..]);
    }
  }

  // ---- splitting a URI

  predicate IsLetter(c: char) { 'a' <= c <= 'z' || 'A' <= c <= 'Z' }

  predicate SchemeTail(c: char) { IsLetter(c) || '0' <= c <= '9' || c == '+' || c == '-' || c == '.' }

  /** The scheme, if the text opens with one. */
  function Scheme(s: string): Option<string> {
    var i := Find(s, ':');
    if 0 < i < |s| && IsLetter(s[0]) && forall k :: 0 < k < i ==> SchemeTail(s[k]) then Some(Lower(s[..i])) else None
  }

  function Lower(s: string): (r: string)
    ensures |r| == |s|
  {
    seq(|s|, i requires 0 <= i < |s| => if 'A' <= s[i] <= 'Z' then s[i] + ('a' - 'A') else s[i])
  }

  predicate IsControl(c: char) { c < ' ' || c == 127 as char }

  /** Every '%' is followed by two hexadecimal digits. */
  predicate ValidEscapes(s: string) { Unescape(s).Some? }

  predicate UserinfoChar(c: char) {
    IsLetter(c) || '0' <= c <= '9' || c in "-._:~!$&'()*+,;=%@"
  }

  /** Index just after the last '@', or 0. */
  function HostStart(authority: string): (i: nat)
    ensures i <= |authority|
  {
    if authority == "" then 0
    else if authority[|authority| - 1] == '@' then |authority|
    else HostStart(authority[..|authority| - 1])
  }

  datatype Parts = Parts(scheme: string, host: string, query: string)

  /** `url.Parse`, as far as a URI with an authority goes: None is an error or a URI without authority. */
  function Split(raw: string): Option<Parts> {
    var u, fragment := Before(raw, '#'), After(raw, '#');
    if (exists k :: 0 <= k < |u| && IsControl(u[k])) || !ValidEscapes(fragment) || Scheme(u).None? then None
    else
      var rest := After(u, ':');
      var hier, query := Before(rest, '?'), After(rest, '?');
      if |hier| < 2 || hier[0] != '/' || hier[1] != '/' then None
      else
        var authority := Before(hier[2..], '/');
        var path := hier[2..][|authority|..];
        var host := authority[HostStart(authority)..];
        var user := authority[..|authority| - |host|];
        if !ValidEscapes(path) || !ValidEscapes(user)
            || !(forall k :: 0 <= k < |user| ==> UserinfoChar(user[k])) then None
        else Some(Parts(Scheme(u).value, host, query))
  }

  lemma {:induction false} HostStartNone(s: string)
    requires '@' !in s
    ensures HostStart(s) == 0
  {
    if s != "" {
      assert s[|s| - 1] in s;
      assert forall c :: c in s[..|s| - 1] ==> c in s;
      HostStartNone(s[..|s| - 1]);
    }
  }
}
