/** The texts that are signed determine the fields they sign. */
module SignedText {
  import opened Wrappers
  import opened Text
  import U = Uuids
  import Url
  import Q = QrCode

  lemma FirstSeparator(x: string, c: char, y: string, x': string, y': string)
    requires c !in x && c !in x' && x + ([c] + y) == x' + ([c] + y')
    ensures x == x' && y == y'
  {
    assert x + ([c] + y) == x + [c] + y && x' + ([c] + y') == x' + [c] + y';
    Url.CutAt(x, c, y);
    Url.CutAt(x', c, y');
  }

  lemma LastSeparator(x: string, c: char, y: string, x': string, y': string)
    requires c !in y && c !in y' && x + ([c] + y) == x' + ([c] + y')
    ensures x == x' && y == y'
  {
    var s := x + ([c] + y);
    assert s[|x|] == c && s[|x'|] == c;
    assert forall k :: |x| < k < |s| ==> s[k] == y[k - |x| - 1] && s[k] in y;
    assert forall k :: |x'| < k < |s| ==> s[k] == y'[k - |x'| - 1] && s[k] in y';
    assert |x| == |x'|;
    assert x == s[..|x|] && x' == s[..|x|];
    assert y == s[|x| + 1..] && y' == s[|x| + 1..];
  }

  lemma NumbersLack(n: int, c: char)
    requires c == '|' || c == '&'
    ensures c !in FormatInt(n)
  {
    hide Digits, Value;
  }

  // ---- the payment URI's message

  /** The signed message of a payment URI determines merchant, amount and expiry. */
  lemma UriMessageInjective(m: U.Uuid, m': U.Uuid, amount: int, amount': int, expires: int, expires': int)
    requires Q.Message(U.String(m), FormatInt(amount), FormatInt(expires))
        == Q.Message(U.String(m'), FormatInt(amount'), FormatInt(expires'))
    ensures m == m' && amount == amount' && expires == expires'
  {
    assert |U.String(m)| == |U.String(m')| by {
      U.StringShape(m);
      U.StringShape(m');
    }
    U.TextOrderIsByteOrder(m, m');
    hide U.String, U.Before, FormatInt;
    var rest, rest' := FormatInt(amount) + ("&expires=" + FormatInt(expires)), FormatInt(amount')
        + ("&expires=" + FormatInt(expires'));
    ConcatSplit("merchant=", "merchant=", U.String(m) + ("&amount=" + rest), U.String(m') + ("&amount=" + rest'));
    ConcatSplit(U.String(m), U.String(m'), "&amount=" + rest, "&amount=" + rest');
    ConcatSplit("&amount=", "&amount=", rest, rest');
    UriNumbersInjective(amount, amount', expires, expires');
  }

  /** Tampering: take a printed code, change its merchant, its amount or its expiry second and keep its signature. The
      signed texts then differ, and while the expiry it now shows is not past, the code is answered with an invalid
      signature exactly when the MAC tells the two texts apart. */
  lemma {:induction false} TamperedExactlyWhen(
    mac: Q.MacFunction, key: string, merchant: U.Uuid, amount: int, reference: GoString, description: GoString,
    expiresAt: int, forged: Q.Params, now: int)
    requires 0 < amount <= INT64_MAX && Q.UnixFits(expiresAt) && now <= Q.Instant(forged.expires)
    requires var printed := Q.ParseURI(Q.BuildURI(mac, key, merchant, amount, reference, description, expiresAt));
             printed.Ok? && forged.signature == printed.value.signature
             && !(forged.merchant == merchant && forged.amount == amount && forged.expires == Q.Unix(expiresAt))
    ensures var was := Q.Message(U.String(merchant), FormatInt(amount), FormatInt(Q.Unix(expiresAt)));
            var shown := Q.Message(U.String(forged.merchant), FormatInt(forged.amount), FormatInt(forged.expires));
            && was != shown
            && (Q.Verify(mac, forged, key, now) == Some(Q.InvalidSignature) <==> mac(key, was) != mac(key, shown))
            && (Q.Verify(mac, forged, key, now) == None <==> mac(key, was) == mac(key, shown))
  {
    Q.RoundTrip(mac, key, merchant, amount, reference, description, expiresAt);
    hide Q.ParseURI, Q.BuildURI, Q.Message, Q.Unix, Q.Instant, U.String, FormatInt;
    var was := Q.Message(U.String(merchant), FormatInt(amount), FormatInt(Q.Unix(expiresAt)));
    var shown := Q.Message(U.String(forged.merchant), FormatInt(forged.amount), FormatInt(forged.expires));
    if was == shown {
      UriMessageInjective(merchant, forged.merchant, amount, forged.amount, Q.Unix(expiresAt), forged.expires);
    }
  }

  lemma UriNumbersInjective(amount: int, amount': int, expires: int, expires': int)
    requires FormatInt(amount) + ("&expires=" + FormatInt(expires))
        == FormatInt(amount') + ("&expires=" + FormatInt(expires'))
    ensures amount == amount' && expires == expires'
  {
    NumbersLack(amount, '&');
    NumbersLack(amount', '&');
    hide FormatInt;
    assert "&expires=" + FormatInt(expires) == ['&'] + ("expires=" + FormatInt(expires));
    assert "&expires=" + FormatInt(expires') == ['&'] + ("expires=" + FormatInt(expires'));
    FirstSeparator(FormatInt(amount), '&', "expires=" + FormatInt(expires), FormatInt(amount'), "expires="
        + FormatInt(expires'));
    ConcatSplit("expires=", "expires=", FormatInt(expires), FormatInt(expires'));
    FormatIntInjective(amount, amount');
    FormatIntInjective(expires, expires');
  }

  // ---- crypto.SignTransaction

  function TransactionMessage(txn: string, sender: string, receiver: string, amount: int, timestamp: int): string {
    txn + ("|" + (sender + ("|" + (receiver + ("|" + (FormatInt(amount) + ("|" + FormatInt(timestamp))))))))
  }

  /** A text cut at every separator. */
  function Fields(s: string, c: char): seq<string>
    decreases |s|
  {
    if c !in s then [s] else [Url.Before(s, c)] + Fields(Url.After(s, c), c)
  }

  lemma FieldsOf(x: string, y: string)
    requires '|' !in x
    ensures Fields(x + ("|" + y), '|') == [x] + Fields(y, '|')
  {
    assert (x + ("|" + y))[|x|] == '|';
    assert x + ("|" + y) == x + ['|'] + y;
    Url.CutAt(x, '|', y);
    hide Url.Before, Url.After;
  }

  /** The transaction message, cut at its separators, is transaction, sender, receiver, amount and time, in this order,
      when the three texts contain none. */
  lemma {:induction false} TransactionMessageFields(t: string, s: string, r: string, amount: int, time: int)
    requires '|' !in t && '|' !in s && '|' !in r
    ensures Fields(TransactionMessage(t, s, r, amount, time), '|')
            == [t, s, r] + [FormatInt(amount), FormatInt(time)]
  {
    NumbersLack(amount, '|');
    NumbersLack(time, '|');
    var f4 := FormatInt(amount) + ("|" + FormatInt(time));
    var f3 := r + ("|" + f4);
    var f2 := s + ("|" + f3);
    assert TransactionMessage(t, s, r, amount, time) == t + ("|" + f2);
    hide *;
    FieldsOf(t, f2);
    FieldsOf(s, f3);
    FieldsOf(r, f4);
    FieldsOf(FormatInt(amount), FormatInt(time));
    OneField(FormatInt(time), '|');
    Listed([t, s, r], FormatInt(amount), FormatInt(time));
    Nested(t, s, r, [FormatInt(amount)] + [FormatInt(time)]);
  }

  lemma Listed(a: seq<string>, x: string, y: string)
    ensures a + ([x] + [y]) == a + [x, y]
  {
  }

  lemma Nested(a: string, b: string, c: string, d: seq<string>)
    ensures [a] + ([b] + ([c] + d)) == [a, b, c] + d
  {
  }

  lemma OneField(x: string, c: char)
    requires c !in x
    ensures Fields(x, c) == [x]
  {
  }

  /** The transaction message determines its five fields when the three texts contain no separator. */
  lemma TransactionMessageInjective(
    t: string, t': string, s: string, s': string, r: string, r': string, amount: int, amount': int, time: int, time':
    int)
    requires '|' !in t && '|' !in t' && '|' !in s && '|' !in s' && '|' !in r && '|' !in r'
    requires TransactionMessage(t, s, r, amount, time) == TransactionMessage(t', s', r', amount', time')
    ensures t == t' && s == s' && r == r' && amount == amount' && time == time'
  {
    NumbersLack(amount, '|');
    NumbersLack(amount', '|');
    hide FormatInt;
    var d, d' := FormatInt(amount) + ("|" + FormatInt(time)), FormatInt(amount') + ("|" + FormatInt(time'));
    FirstSeparator(t, '|', s + ("|" + (r + ("|" + d))), t', s' + ("|" + (r' + ("|" + d'))));
    FirstSeparator(s, '|', r + ("|" + d), s', r' + ("|" + d'));
    FirstSeparator(r, '|', d, r', d');
    FirstSeparator(FormatInt(amount), '|', FormatInt(time), FormatInt(amount'), FormatInt(time'));
    FormatIntInjective(amount, amount');
    FormatIntInjective(time, time');
  }

  /** Whatever the texts: two transactions share their message exactly when amounts and times agree and the three texts
      agree once joined, wherever their separators stand. */
  lemma TransactionMessageEqualExactlyWhen(
    t: string, t': string, s: string, s': string, r: string, r': string, amount: int, amount': int, time: int, time':
    int)
    ensures TransactionMessage(t, s, r, amount, time) == TransactionMessage(t', s', r', amount', time')
            <==> amount == amount' && time == time' && Joined(t, s, r) == Joined(t', s', r')
  {
    MessageJoins(t, s, r, amount, time);
    MessageJoins(t', s', r', amount', time');
    NumbersLack(amount, '|');
    NumbersLack(amount', '|');
    NumbersLack(time, '|');
    NumbersLack(time', '|');
    hide FormatInt, TransactionMessage, Joined;
    var x, y := Joined(t, s, r) + ("|" + FormatInt(amount)), Joined(t', s', r') + ("|" + FormatInt(amount'));
    if TransactionMessage(t, s, r, amount, time) == TransactionMessage(t', s', r', amount', time') {
      LastSeparator(x, '|', FormatInt(time), y, FormatInt(time'));
      LastSeparator(Joined(t, s, r), '|', FormatInt(amount), Joined(t', s', r'), FormatInt(amount'));
      FormatIntInjective(amount, amount');
      FormatIntInjective(time, time');
    }
  }

  function Joined(t: string, s: string, r: string): string {
    t + ("|" + (s + ("|" + r)))
  }

  lemma MessageJoins(t: string, s: string, r: string, amount: int, time: int)
    ensures TransactionMessage(t, s, r, amount, time)
        == Joined(t, s, r) + ("|" + FormatInt(amount)) + ("|" + FormatInt(time))
  {
  }

  // ---- crypto.SignQRPayload

  function QRPayloadMessage(wallet: string, amount: int, reference: string, expires: int): string {
    wallet + ("|" + (FormatInt(amount) + ("|" + (reference + ("|" + FormatInt(expires))))))
  }

  /** The QR payload's message, cut at its separators, is wallet, amount, reference and expiry, in this order, when
      wallet and reference contain none. */
  lemma {:induction false} QRPayloadMessageFields(w: string, amount: int, r: string, expires: int)
    requires '|' !in w && '|' !in r
    ensures Fields(QRPayloadMessage(w, amount, r, expires), '|') == [w, FormatInt(amount), r] + [FormatInt(expires)]
  {
    NumbersLack(amount, '|');
    NumbersLack(expires, '|');
    var f3 := r + ("|" + FormatInt(expires));
    var f2 := FormatInt(amount) + ("|" + f3);
    assert QRPayloadMessage(w, amount, r, expires) == w + ("|" + f2);
    hide *;
    FieldsOf(w, f2);
    FieldsOf(FormatInt(amount), f3);
    FieldsOf(r, FormatInt(expires));
    OneField(FormatInt(expires), '|');
    Nested(w, FormatInt(amount), r, [FormatInt(expires)]);
  }

  /** This message determines its fields even when the reference holds separators: the first two are found
      from the left and the last from the right. */
  lemma QRPayloadMessageInjective(w: string, w': string, amount: int, amount': int, r: string, r': string, expires: int,
      expires': int)
    requires '|' !in w && '|' !in w'
    requires QRPayloadMessage(w, amount, r, expires) == QRPayloadMessage(w', amount', r', expires')
    ensures w == w' && amount == amount' && r == r' && expires == expires'
  {
    NumbersLack(amount, '|');
    NumbersLack(amount', '|');
    NumbersLack(expires, '|');
    NumbersLack(expires', '|');
    hide FormatInt;
    var d, d' := r + ("|" + FormatInt(expires)), r' + ("|" + FormatInt(expires'));
    FirstSeparator(w, '|', FormatInt(amount) + ("|" + d), w', FormatInt(amount') + ("|" + d'));
    FirstSeparator(FormatInt(amount), '|', d, FormatInt(amount'), d');
    LastSeparator(r, '|', FormatInt(expires), r', FormatInt(expires'));
    FormatIntInjective(amount, amount');
    FormatIntInjective(expires, expires');
  }
}
