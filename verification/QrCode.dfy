/** The `cbdc://` payment URI: printer, parser and verifier. HMAC-SHA256 is a parameter. */
module QrCode {
  import opened Wrappers
  import opened Text
  import U = Uuids
  import Url

  /** A hex-encoded 256-bit MAC. */
  type Mac = s: string | |s| == 64 && forall i :: 0 <= i < 64 ==> '0' <= s[i] <= '9' || 'a' <= s[i] <= 'f'
    witness seq(64, i => '0')

  /** HMAC under a key: any function from key and message to a MAC. */
  type MacFunction = (string, string) -> Mac

  const NANOS := 1_000_000_000

  /** Expiry in whole seconds; a parsed time is at second granularity. */
  datatype Params = Params(merchant: U.Uuid, amount: int, reference: string, description: string, expires: int,
      signature: string)

  datatype UriError = InvalidUri | InvalidMerchant | InvalidAmount | InvalidExpires | MissingSignature

  datatype VerifyError = Expired | InvalidSignature

  /** `time.Time.Unix`: whole seconds, rounding down. */
  function Unix(t: int): int { t / NANOS }

  /** Seconds from the year 1, where a time.Time counts from, to 1970. */
  const UNIX_TO_INTERNAL := 62_135_596_800

  /** A time.Time can hold the time, and its Unix seconds do not wrap. */
  predicate UnixFits(t: int) { INT64_MIN <= Unix(t) <= INT64_MAX - UNIX_TO_INTERNAL }

  /** The time `time.Unix(seconds, 0)` compares as: counting from the year 1 wraps. */
  function Instant(seconds: int): int {
    (WrapInt64(seconds + UNIX_TO_INTERNAL) - UNIX_TO_INTERNAL) * NANOS
  }

  /** A parsed second is compared as itself exactly when it is not past the last one a time.Time can count to. A later
      one is compared as a time 2^64 seconds earlier. */
  lemma InstantExactlyWhen(s: int64)
    ensures Instant(s) == s * NANOS <==> s <= INT64_MAX - UNIX_TO_INTERNAL
    ensures s > INT64_MAX - UNIX_TO_INTERNAL ==> Instant(s) == (s - 0x1_0000_0000_0000_0000) * NANOS
  {
  }

  /** So a code whose expiry is past that second is expired for every clock that has passed 1970, however it is
      signed. */
  lemma LateExpiryIsExpired(mac: MacFunction, p: Params, key: string, now: int)
    requires INT64_MAX - UNIX_TO_INTERNAL < p.expires <= INT64_MAX && now >= 0
    ensures Verify(mac, p, key, now) == Some(Expired)
  {
    InstantExactlyWhen(p.expires);
    hide Instant, Sign;
  }

  function Message(merchant: string, amount: string, expires: string): string {
    "merchant=" + (merchant + ("&amount=" + (amount + ("&expires=" + expires))))
  }

  function Sign(mac: MacFunction, key: string, merchant: U.Uuid, amount: int, expires: int): Mac {
    mac(key, Message(U.String(merchant), FormatInt(amount), FormatInt(expires)))
  }

  /** The query of a payment URI, in the key order Encode writes. */
  function Query(merchant: U.Uuid, amount: int, reference: GoString, description: GoString, expires: int,
      sig: Mac): (q: seq<Url.Pair>)
    ensures |q| == 4 + (if description == "" then 0 else 1) + (if reference == "" then 0 else 1)
  {
    AsciiText(merchant, amount, expires, sig);
    [Url.Pair("amount", FormatInt(amount))] + (if description == "" then [] else [Url.Pair("desc", description)]) +
    [Url.Pair("expires", FormatInt(expires)), Url.Pair("merchant", U.String(merchant))] +
    (if reference == "" then [] else [Url.Pair("ref", reference)]) + [Url.Pair("sig", sig)]
  }

  lemma AsciiText(merchant: U.Uuid, amount: int, expires: int, sig: Mac)
    ensures AllBytes(U.String(merchant)) && AllBytes(FormatInt(amount)) && AllBytes(FormatInt(expires)) && AllBytes(sig)
  {
    U.StringShape(merchant);
    hide U.String;
  }

  /** `BuildURI`; the expiry is in nanoseconds. */
  function BuildURI(mac: MacFunction, key: string, merchant: U.Uuid, amount: int, reference: GoString,
      description: GoString, expiresAt: int): string {
    "cbdc://pay?"
        + Url.Encode(Query(merchant, amount, reference, description, Unix(expiresAt),
        Sign(mac, key, merchant, amount, Unix(expiresAt))))
  }

  predicate IsSpace(c: char) { c == ' ' || '\t' <= c <= '\r' }

  /** `strings.TrimSpace`, for ASCII white space. */
  function TrimSpace(s: string): string {
    if s == "" then ""
    else if IsSpace(s[0]) then TrimSpace(s[1..])
    else if IsSpace(s[|s| - 1]) then TrimSpace(s[..|s| - 1])
    else s
  }

  /** `ParseURI`. */
  function ParseURI(raw: string): Result<Params, UriError> {
    match Url.Split(raw)
    case None => Err(InvalidUri)
    case Some(parts) =>
      if parts.scheme != "cbdc" || parts.host != "pay" then Err(InvalidUri)
      else ParseParams(Url.ParseQuery(parts.query))
  }

  function ParseParams(q: seq<(string, string)>): Result<Params, UriError> {
    match U.Parse(Url.Get(q, "merchant"))
    case None => Err(InvalidMerchant)
    case Some(merchant) =>
      match ParseInt(Url.Get(q, "amount"))
      case None => Err(InvalidAmount)
      case Some(amount) =>
        if amount <= 0 then Err(InvalidAmount)
        else
          match ParseInt(Url.Get(q, "expires"))
          case None => Err(InvalidExpires)
          case Some(expires) =>
            var sig := TrimSpace(Url.Get(q, "sig"));
            if sig == "" then Err(MissingSignature)
            else Ok(Params(merchant, amount, Url.Get(q, "ref"), Url.Get(q, "desc"), expires, sig))
  }

  /** Trimming takes white space from both ends, and all of it. */
  lemma {:induction false} TrimSpaceTrims(s: string) returns (i: nat, j: nat)
    ensures i <= j <= |s| && TrimSpace(s) == s[i..j]
    ensures forall k :: 0 <= k < i || j <= k < |s| ==> IsSpace(s[k])
    ensures i < j ==> !IsSpace(s[i]) && !IsSpace(s[j - 1])
    decreases |s|
  {
    hide IsSpace;
    i, j := 0, |s|;
    if s != "" && IsSpace(s[0]) {
      i, j := TrimSpaceTrims(s[1..]);
      i, j := i + 1, j + 1;
    } else if s != "" && IsSpace(s[|s| - 1]) {
      i, j := TrimSpaceTrims(s[..|s| - 1]);
    }
  }

  /** Which texts are read as payment codes, and why the others are not: the scheme is cbdc and the host pay, and the
      query's merchant is a UUID, its amount a positive int64, its expiry an int64, and its signature not blank. */
  lemma ParseAnswers(raw: string)
    ensures match Url.Split(raw)
            case None => ParseURI(raw) == Err(InvalidUri)
            case Some(parts) =>
              var q := Url.ParseQuery(parts.query);
              var merchant, amount := U.Parse(Url.Get(q, "merchant")), ParseInt(Url.Get(q, "amount"));
              var expires, sig := ParseInt(Url.Get(q, "expires")), TrimSpace(Url.Get(q, "sig"));
              var ours := parts.scheme == "cbdc" && parts.host == "pay";
              && (ParseURI(raw).Ok? <==>
                    ours && merchant.Some? && amount.Some? && amount.value > 0 && expires.Some? && sig != "")
              && (ParseURI(raw).Ok? ==>
                    ParseURI(raw).value == Params(merchant.value, amount.value, Url.Get(q, "ref"), Url.Get(q, "desc"),
                                                  expires.value, sig))
              && (ParseURI(raw) == Err(InvalidUri) <==> !ours)
              && (ParseURI(raw) == Err(InvalidMerchant) <==> ours && merchant.None?)
              && (ParseURI(raw) == Err(InvalidAmount) <==>
                    ours && merchant.Some? && (amount.None? || amount.value <= 0))
              && (ParseURI(raw) == Err(InvalidExpires) <==>
                    ours && merchant.Some? && amount.Some? && amount.value > 0 && expires.None?)
              && (ParseURI(raw) == Err(MissingSignature) <==>
                    ours && merchant.Some? && amount.Some? && amount.value > 0 && expires.Some? && sig == "")
  {
    hide Url.Split, Url.ParseQuery, Url.Get, U.Parse, ParseInt, TrimSpace;
  }

  /** `Verify`, at a time in nanoseconds. */
  function Verify(mac: MacFunction, p: Params, key: string, now: int): Option<VerifyError> {
    if now > Instant(p.expires) then Some(Expired)
    else if p.signature != Sign(mac, key, p.merchant, p.amount, p.expires) then Some(InvalidSignature)
    else None
  }

  /** A code passes exactly when it has not expired and its signature is the MAC, under this key, of its own merchant,
      amount and expiry second. An expired code is told so first. */
  lemma VerifiesExactlyWhen(mac: MacFunction, p: Params, key: string, now: int)
    ensures var signed := "merchant=" + U.String(p.merchant) + "&amount=" + FormatInt(p.amount) + "&expires="
                + FormatInt(p.expires);
            && (Verify(mac, p, key, now) == None <==> now <= Instant(p.expires) && p.signature == mac(key, signed))
            && (Verify(mac, p, key, now) == Some(Expired) <==> now > Instant(p.expires))
            && (Verify(mac, p, key, now) == Some(InvalidSignature) <==>
                  now <= Instant(p.expires) && p.signature != mac(key, signed))
  {
    hide U.String, FormatInt, Instant;
    SignedTextIs(U.String(p.merchant), FormatInt(p.amount), FormatInt(p.expires));
    hide Message;
  }

  lemma SignedTextIs(merchant: string, amount: string, expires: string)
    ensures Message(merchant, amount, expires)
            == "merchant=" + merchant + "&amount=" + amount + "&expires=" + expires
  {
  }

  // ---- the printer writes keys in sorted order

  /** The query's keys ascend, so this is the order in which Encode emits them. */
  lemma KeysAscend(merchant: U.Uuid, amount: int, reference: GoString, description: GoString, expires: int, sig: Mac)
    ensures var q := Query(merchant, amount, reference, description, expires, sig);
            forall i :: 0 <= i < |q| - 1 ==> StrLess(q[i].key, q[i + 1].key)
  {
    hide U.String;
    assert StrLess("amount", "desc") && StrLess("amount", "expires") && StrLess("desc", "expires");
    assert StrLess("expires", "merchant") && StrLess("merchant", "ref") && StrLess("merchant", "sig");
    assert "ref"[1..] == "ef" && "sig"[1..] == "ig";
    assert StrLess("ref", "sig");
  }

  lemma PlainTexts(merchant: U.Uuid, n: int, sig: Mac)
    ensures AllBytes(FormatInt(n)) && Url.Escape(FormatInt(n)) == FormatInt(n)
    ensures AllBytes(U.String(merchant)) && Url.Escape(U.String(merchant)) == U.String(merchant)
    ensures AllBytes(sig) && Url.Escape(sig) == sig
  {
    U.StringShape(merchant);
    U.StringIsPlain(merchant);
    hide FormatInt, U.String, Url.Escape;
    Url.EscapePlain(FormatInt(n));
    Url.EscapePlain(U.String(merchant));
    Url.EscapePlain(sig);
  }

  lemma OnePair(key: GoString, value: GoString)
    requires forall i :: 0 <= i < |key| ==> Url.Unreserved(key[i])
    ensures Url.Encode([Url.Pair(key, value)]) == key + "=" + Url.Escape(value)
  {
    Url.EscapePlain(key);
    assert key + ("=" + Url.Escape(value)) == key + "=" + Url.Escape(value);
    hide Url.Escape;
  }

  lemma FirstPair(key: GoString, value: GoString, more: seq<Url.Pair>)
    requires more != [] && forall i :: 0 <= i < |key| ==> Url.Unreserved(key[i])
    ensures Url.Encode([Url.Pair(key, value)] + more) == key + "=" + Url.Escape(value) + "&" + Url.Encode(more)
  {
    Url.EncodeJoins([Url.Pair(key, value)], more);
    OnePair(key, value);
    hide Url.Encode, Url.Escape;
  }

  /** A pair that is left out when its text is empty. */
  lemma OptionalPair(key: GoString, value: GoString, more: seq<Url.Pair>)
    requires more != [] && forall i :: 0 <= i < |key| ==> Url.Unreserved(key[i])
    ensures Url.Encode((if value == "" then [] else [Url.Pair(key, value)]) + more)
            == (if value == "" then "" else key + "=" + Url.Escape(value) + "&") + Url.Encode(more)
  {
    if value == "" {
      assert [] + more == more;
    } else {
      FirstPair(key, value, more);
    }
    hide Url.Encode, Url.Escape;
  }

  /** The query's pairs, the texts left out where they are empty. */
  function QueryText(merchant: string, amount: string, reference: GoString, description: GoString, expires: string,
      sig: string): string {
    "amount" + "=" + amount + "&"
    + ((if description == "" then "" else "desc" + "=" + Url.Escape(description) + "&")
       + ("expires" + "=" + expires + "&"
          + ("merchant" + "=" + merchant + "&"
             + ((if reference == "" then "" else "ref" + "=" + Url.Escape(reference) + "&") + ("sig" + "=" + sig)))))
  }

  lemma QueryIs(merchant: U.Uuid, amount: int, reference: GoString, description: GoString, expires: int, sig: Mac)
    requires AllBytes(U.String(merchant)) && AllBytes(FormatInt(amount)) && AllBytes(FormatInt(expires))
    requires AllBytes(sig)
    ensures Query(merchant, amount, reference, description, expires, sig)
            == [Url.Pair("amount", FormatInt(amount))]
               + ((if description == "" then [] else [Url.Pair("desc", description)])
                  + ([Url.Pair("expires", FormatInt(expires))]
                     + ([Url.Pair("merchant", U.String(merchant))]
                        + ((if reference == "" then [] else [Url.Pair("ref", reference)]) + [Url.Pair("sig", sig)]))))
  {
    hide FormatInt, U.String;
  }

  lemma QueryReads(merchant: U.Uuid, amount: int, reference: GoString, description: GoString, expires: int, sig: Mac)
    ensures Url.Encode(Query(merchant, amount, reference, description, expires, sig))
            == QueryText(U.String(merchant), FormatInt(amount), reference, description, FormatInt(expires), sig)
  {
    hide FormatInt, U.String, Url.Escape, Url.Encode, Query;
    PlainTexts(merchant, amount, sig);
    PlainTexts(merchant, expires, sig);
    QueryIs(merchant, amount, reference, description, expires, sig);
    var last := [Url.Pair("sig", sig)];
    OnePair("sig", sig);
    var tail := (if reference == "" then [] else [Url.Pair("ref", reference)]) + last;
    OptionalPair("ref", reference, last);
    var back := [Url.Pair("merchant", U.String(merchant))] + tail;
    FirstPair("merchant", U.String(merchant), tail);
    var rest := [Url.Pair("expires", FormatInt(expires))] + back;
    FirstPair("expires", FormatInt(expires), back);
    var most := (if description == "" then [] else [Url.Pair("desc", description)]) + rest;
    OptionalPair("desc", description, rest);
    FirstPair("amount", FormatInt(amount), most);
  }

  /** The printed code, character by character: number, identifier and signature stand as they are, the texts are
      escaped, and an empty text is left out. */
  lemma {:induction false} CodeReads(mac: MacFunction, key: string, merchant: U.Uuid, amount: int, reference: GoString,
      description: GoString, expiresAt: int)
    ensures var expires := FormatInt(Unix(expiresAt));
            var sig := mac(key, "merchant=" + U.String(merchant) + "&amount=" + FormatInt(amount) + "&expires="
                                + expires);
            BuildURI(mac, key, merchant, amount, reference, description, expiresAt)
            == "cbdc://pay?"
               + QueryText(U.String(merchant), FormatInt(amount), reference, description, expires, sig)
  {
    hide FormatInt, U.String, Url.Escape, Url.Encode, Unix, Query, Message, QueryText;
    SignedTextIs(U.String(merchant), FormatInt(amount), FormatInt(Unix(expiresAt)));
    QueryReads(merchant, amount, reference, description, Unix(expiresAt),
               Sign(mac, key, merchant, amount, Unix(expiresAt)));
  }

  // ---- round trip

  lemma QueryGets(merchant: U.Uuid, amount: int, reference: GoString, description: GoString, expires: int, sig: Mac)
    ensures var q := Url.Plain(Query(merchant, amount, reference, description, expires, sig));
            && Url.Get(q, "merchant") == U.String(merchant)
            && Url.Get(q, "amount") == FormatInt(amount)
            && Url.Get(q, "expires") == FormatInt(expires)
            && Url.Get(q, "sig") == sig
            && Url.Get(q, "ref") == reference
            && Url.Get(q, "desc") == description
  {
    hide U.String, FormatInt;
    var pairs := Query(merchant, amount, reference, description, expires, sig);
    var q := Url.Plain(pairs);
    GetFound(q, "amount", 0);
    var e := if description == "" then 1 else 2;
    GetFound(q, "expires", e);
    GetFound(q, "merchant", e + 1);
    GetFound(q, "sig", |q| - 1);
    if description == "" { GetMissing(q, "desc"); } else { GetFound(q, "desc", 1); }
    if reference == "" { GetMissing(q, "ref"); } else { GetFound(q, "ref", e + 2); }
  }

  lemma {:induction false} GetFound(q: seq<(string, string)>, key: string, i: nat)
    requires i < |q| && q[i].0 == key && forall k :: 0 <= k < i ==> q[k].0 != key
    ensures Url.Get(q, key) == q[i].1
  {
    if i > 0 {
      GetFound(q[1..], key, i - 1);
    }
  }

  lemma {:induction false} GetMissing(q: seq<(string, string)>, key: string)
    requires forall k :: 0 <= k < |q| ==> q[k].0 != key
    ensures Url.Get(q, key) == ""
  {
    if q != [] {
      GetMissing(q[1..], key);
    }
  }

  /** A URI with this opening and a query of harmless characters splits where it should. */
  lemma SplitBuilt(q: string)
    requires forall i :: 0 <= i < |q| ==> Url.Inert(q[i]) || q[i] == '=' || q[i] == '&'
    ensures Url.Split("cbdc://pay?" + q) == Some(Url.Parts("cbdc", "pay", q))
  {
    var raw := "cbdc://pay?" + q;
    hide Url.Find, Url.Before, Url.After, Url.HostStart, Url.Unescape;
    assert '#' !in raw;
    Url.CutAt(raw, '#', "");
    assert Url.ValidEscapes("") by { EmptyEscapes(); }
    Url.CutAt("cbdc", ':', "//pay?" + q);
    assert raw == "cbdc" + [':'] + ("//pay?" + q);
    Url.CutAt("//pay", '?', q);
    assert "//pay?" + q == "//pay" + ['?'] + q;
    Url.CutAt("pay", '/', "");
    assert "//pay"[2..] == "pay";
    Url.HostStartNone("pay");
    assert "pay"[3..] == "" && "pay"[0..] == "pay" && "pay"[..0] == "";
    SchemeBuilt(raw);
  }

  lemma EmptyEscapes()
    ensures Url.ValidEscapes("")
  {
  }

  lemma SchemeBuilt(raw: string)
    requires |raw| > 4 && raw[..4] == "cbdc" && raw[4] == ':'
    ensures Url.Scheme(raw) == Some("cbdc")
  {
    assert raw == "cbdc" + [':'] + raw[5..];
    Url.CutAt("cbdc", ':', raw[5..]);
    assert raw[0] == "cbdc"[0] && raw[1] == "cbdc"[1] && raw[2] == "cbdc"[2] && raw[3] == "cbdc"[3];
    assert Url.Find(raw, ':') == |Url.Before(raw, ':')| == 4;
    assert Url.Lower("cbdc") == "cbdc";
  }

  lemma TrimSpaceOfMac(sig: Mac)
    ensures TrimSpace(sig) == sig
  {
  }

  /** Parsing the pairs of a printed query: the fields come back exactly when the amount is positive. */
  lemma ParamsOfQuery(merchant: U.Uuid, amount: int, reference: GoString, description: GoString, expires: int, sig: Mac)
    requires INT64_MIN <= amount <= INT64_MAX && INT64_MIN <= expires <= INT64_MAX
    ensures ParseParams(Url.Plain(Query(merchant, amount, reference, description, expires, sig))) ==
            if amount > 0 then Ok(Params(merchant, amount, reference, description, expires, sig))
                else Err(InvalidAmount)
  {
    QueryGets(merchant, amount, reference, description, expires, sig);
    U.ParseString(merchant);
    ParseFormatInt(amount);
    ParseFormatInt(expires);
    TrimSpaceOfMac(sig);
    hide U.String, U.Parse, FormatInt, ParseInt, Url.Get, Query, TrimSpace;
  }

  /** The round trip: for every merchant, 64-bit amount, byte strings and expiry, parsing the printed URI
      gives the same fields back with the expiry cut to whole seconds - exactly when the amount is positive. */
  lemma {:induction false} RoundTrip(mac: MacFunction, key: string, merchant: U.Uuid, amount: int, reference: GoString,
      description: GoString, expiresAt: int)
    requires INT64_MIN <= amount <= INT64_MAX && UnixFits(expiresAt)
    ensures ParseURI(BuildURI(mac, key, merchant, amount, reference, description, expiresAt)) ==
            if amount > 0
            then Ok(Params(merchant, amount, reference, description, Unix(expiresAt),
                Sign(mac, key, merchant, amount, Unix(expiresAt))))
            else Err(InvalidAmount)
  {
    var sig := Sign(mac, key, merchant, amount, Unix(expiresAt));
    var q := Query(merchant, amount, reference, description, Unix(expiresAt), sig);
    Url.ParseEncode(q);
    SplitBuilt(Url.Encode(q));
    ParamsOfQuery(merchant, amount, reference, description, Unix(expiresAt), sig);
    hide Query, ParseParams, Url.Split, Url.ParseQuery, Url.Encode, Sign, Unix;
  }

  /** The parsed URI verifies under the same key exactly when the time is not after that second. */
  lemma {:induction false} BuiltVerifies(
    mac: MacFunction, key: string, merchant: U.Uuid, amount: int, reference: GoString, description: GoString,
    expiresAt: int, now: int)
    requires 0 < amount <= INT64_MAX && UnixFits(expiresAt)
    ensures var parsed := ParseURI(BuildURI(mac, key, merchant, amount, reference, description, expiresAt));
            parsed.Ok? && (Verify(mac, parsed.value, key, now).None? <==> now <= Unix(expiresAt) * NANOS)
  {
    RoundTrip(mac, key, merchant, amount, reference, description, expiresAt);
    InstantExactlyWhen(Unix(expiresAt));
    hide BuildURI, ParseURI, Sign, Unix, Instant;
  }

  /** Distinct inputs give distinct URIs. */
  lemma BuildURIInjective(
    mac: MacFunction, key: string, key': string, merchant: U.Uuid, merchant': U.Uuid, amount: int, amount': int,
    reference: GoString, reference': GoString, description: GoString, description': GoString, expiresAt: int,
    expiresAt': int)
    requires 0 < amount <= INT64_MAX && 0 < amount' <= INT64_MAX && UnixFits(expiresAt) && UnixFits(expiresAt')
    requires BuildURI(mac, key, merchant, amount, reference, description, expiresAt) ==
             BuildURI(mac, key', merchant', amount', reference', description', expiresAt')
    ensures merchant == merchant' && amount == amount' && reference == reference' && description == description'
    ensures Unix(expiresAt) == Unix(expiresAt')
  {
    RoundTrip(mac, key, merchant, amount, reference, description, expiresAt);
    RoundTrip(mac, key', merchant', amount', reference', description', expiresAt');
    hide BuildURI, ParseURI, Sign, Unix;
  }
}
