/** Merchant payment requests: the stored rows, their conditional updates and how a scanned payload finds its row. */
module MerchantModel {
  import opened Wrappers
  import opened Text
  import opened Uuids
  import Q = QrCode
  import L = LedgerModel

  datatype Status = Pending | Paid | Expired | Cancelled

  datatype Merchant = Merchant(user: Uuid, active: bool)

  /** Times are in nanoseconds. */
  datatype Request = Request(
    id: Uuid, merchant: Uuid, amount: int, reference: GoString, description: GoString, qrPayload: string,
    status: Status,
    payer: Option<Uuid>, txn: Option<Uuid>, expiresAt: int, createdAt: int, paidAt: Option<int>)

  datatype Error =
    | RequestNotFound
    | RequestExpired
    | RequestAlreadyPaid
    | RequestCancelled
    | MerchantNotFound
    | MerchantInactive
    | SelfPayment
    | InvalidPayload
    | VerificationFailed
    | WalletLookupFailed
    | LedgerRefused
    | LedgerReplayed
    | InsertRefused
    | Unavailable

  /** Index of the row with this id, or |rows|. */
  function IndexOf(rows: seq<Request>, id: Uuid): (i: nat)
    ensures i <= |rows| && (i < |rows| ==> rows[i].id == id)
    ensures forall k :: 0 <= k < i ==> rows[k].id != id
  {
    if rows == [] || rows[0].id == id then 0 else 1 + IndexOf(rows[1..], id)
  }

  /** Row i has this id, and none before it has. */
  predicate StandsAt(rows: seq<Request>, id: Uuid, i: nat) {
    i < |rows| && rows[i].id == id && forall k :: 0 <= k < i ==> rows[k].id != id
  }

  lemma IndexStands(rows: seq<Request>, id: Uuid)
    ensures IndexOf(rows, id) < |rows| ==> StandsAt(rows, id, IndexOf(rows, id))
    ensures forall i: nat :: StandsAt(rows, id, i) ==> i == IndexOf(rows, id)
  {
    if IndexOf(rows, id) == |rows| {
      NobodyHas(rows, id);
    }
    hide IndexOf;
  }

  lemma {:induction false} NobodyHas(rows: seq<Request>, id: Uuid)
    ensures IndexOf(rows, id) == |rows| ==> forall k :: 0 <= k < |rows| ==> rows[k].id != id
  {
  }

  /** UPDATE ... SET status = 'PAID' ... WHERE id = $1 AND status = 'PENDING' AND expires_at > NOW(), and the
      error a second look gives when no row matched. */
  function MarkPaid(rows: seq<Request>, id: Uuid, payer: Uuid, txn: Uuid, now: int): Result<seq<Request>, Error> {
    var i := IndexOf(rows, id);
    if i == |rows| then Err(RequestNotFound)
    else match rows[i].status
      case Pending =>
        if rows[i].expiresAt > now then
          Ok(rows[i := rows[i].(status := Paid, payer := Some(payer), txn := Some(txn), paidAt := Some(now))])
        else Err(RequestExpired)
      case Paid => Err(RequestAlreadyPaid)
      case Expired => Err(RequestExpired)
      case Cancelled => Err(RequestCancelled)
  }

  /** UPDATE ... SET status = 'CANCELLED' WHERE id = $1 AND merchant_id = $2 AND status = 'PENDING'. */
  function Cancel(rows: seq<Request>, id: Uuid, merchant: Uuid): Result<seq<Request>, Error> {
    var i := IndexOf(rows, id);
    if i < |rows| && rows[i].merchant == merchant && rows[i].status == Pending
    then Ok(rows[i := rows[i].(status := Cancelled)]) else Err(RequestNotFound)
  }

  /** A merchant's rows, newest first, optionally of one status, at most `limit`. */
  function List(rows: seq<Request>, merchant: Uuid, status: Option<Status>, limit: nat): (r: seq<Request>)
    ensures |r| <= limit
    ensures forall x :: x in r ==> x in rows && x.merchant == merchant && (status.Some? ==> x.status == status.value)
  {
    if rows == [] || limit == 0 then []
    else
      var last, older := rows[|rows| - 1], rows[..|rows| - 1];
      if last.merchant == merchant && (status.None? || last.status == status.value)
      then [last] + List(older, merchant, status, limit - 1)
      else List(older, merchant, status, limit)
  }

  predicate Wants(x: Request, merchant: Uuid, status: Option<Status>) {
    x.merchant == merchant && (status.None? || x.status == status.value)
  }

  /** WHERE merchant_id = $1 [AND status = $2], oldest first. */
  function Wanted(rows: seq<Request>, merchant: Uuid, status: Option<Status>): (r: seq<Request>)
    ensures forall x ::
              x in r <==> x in rows && x.merchant == merchant && (status.Some? ==> x.status == status.value)
  {
    if rows == [] then []
    else
      var older, last := Wanted(rows[..|rows| - 1], merchant, status), rows[|rows| - 1];
      assert rows == rows[..|rows| - 1] + [last];
      if Wants(last, merchant, status) then older + [last] else older
  }

  /** A limit outside 1 to 100 becomes 20. */
  function LimitOf(limit: int): (n: nat)
    ensures 1 <= n <= 100
  {
    if limit < 1 || limit > 100 then 20 else limit
  }

  function OffsetOf(page: int, limit: int): nat {
    if page < 1 then 0 else (page - 1) * LimitOf(limit)
  }

  /** Listings show up to 100 rows a page, 20 if another number is asked for, and count pages from 1. */
  lemma PagesExactly(page: int, limit: int)
    ensures 1 <= limit <= 100 ==> LimitOf(limit) == limit
    ensures limit < 1 || limit > 100 ==> LimitOf(limit) == 20
    ensures page <= 1 ==> OffsetOf(page, limit) == 0
    ensures page >= 1 ==> OffsetOf(page + 1, limit) == OffsetOf(page, limit) + LimitOf(limit)
  {
    assert page >= 1 ==> (page + 1 - 1) * LimitOf(limit) == (page - 1) * LimitOf(limit) + LimitOf(limit);
  }

  /** ORDER BY created_at DESC LIMIT n OFFSET m, over rows given oldest first. */
  function Page(found: seq<Request>, offset: nat, limit: nat): (r: seq<Request>)
    ensures |r| == if offset >= |found| then 0 else if |found| - offset < limit then |found| - offset else limit
    ensures forall i :: 0 <= i < |r| ==> r[i] == found[|found| - 1 - offset - i]
  {
    var left := if offset >= |found| then 0 else |found| - offset;
    seq(if left < limit then left else limit, i requires 0 <= i < left => found[|found| - 1 - offset - i])
  }

  /** Two stretches of the listing that follow one another are one stretch. */
  lemma PageJoins(found: seq<Request>, offset: nat, n: nat, m: nat)
    ensures Page(found, offset, n) + Page(found, offset + n, m) == Page(found, offset, n + m)
  {
  }

  /** Pages 1 to `pages` of a listing, one after another. */
  function Pages(found: seq<Request>, limit: int, pages: nat): seq<Request> {
    if pages == 0 then [] else Pages(found, limit, pages - 1) + Page(found, OffsetOf(pages, limit), LimitOf(limit))
  }

  function Newest(found: seq<Request>): (r: seq<Request>)
    ensures |r| == |found| && forall i :: 0 <= i < |r| ==> r[i] == found[|found| - 1 - i]
  {
    if found == [] then [] else [found[|found| - 1]] + Newest(found[..|found| - 1])
  }

  /** Reading page after page, whatever limit was asked for, gives the rows newest first, each once and none skipped:
      k pages are the first k times the limit of them, and enough pages are all of them. */
  lemma {:induction false} PagesAreNewestFirst(found: seq<Request>, limit: int, pages: nat)
    ensures pages * LimitOf(limit) <= |found| ==> Pages(found, limit, pages) == Newest(found)[..pages * LimitOf(limit)]
    ensures pages * LimitOf(limit) >= |found| ==> Pages(found, limit, pages) == Newest(found)
  {
    PagesAreOnePage(found, limit, pages);
    hide Pages, LimitOf;
  }

  lemma {:induction false} PagesAreOnePage(found: seq<Request>, limit: int, pages: nat)
    ensures pages * LimitOf(limit) >= 0 && Pages(found, limit, pages) == Page(found, 0, pages * LimitOf(limit))
  {
    if pages > 0 {
      hide LimitOf, OffsetOf, Page;
      PagesAreOnePage(found, limit, pages - 1);
      OffsetTurns(pages, limit);
      PageJoins(found, 0, OffsetOf(pages, limit), LimitOf(limit));
    } else {
      PageEnds(found, 0);
    }
  }

  lemma OffsetTurns(page: nat, limit: int)
    requires page > 0
    ensures OffsetOf(page, limit) == (page - 1) * LimitOf(limit)
            && OffsetOf(page, limit) + LimitOf(limit) == page * LimitOf(limit)
  {
    hide LimitOf;
  }

  /** The scan's listing is the first page of the merchant's rows: the newest first, none skipped, up to the limit. */
  lemma {:induction false} ListIsFirstPage(rows: seq<Request>, merchant: Uuid, status: Option<Status>, limit: nat)
    ensures List(rows, merchant, status, limit) == Page(Wanted(rows, merchant, status), 0, limit)
    decreases |rows|
  {
    hide Page;
    PageEnds([], limit);
    if rows != [] && limit > 0 {
      var older := rows[..|rows| - 1];
      if Wants(rows[|rows| - 1], merchant, status) {
        ListIsFirstPage(older, merchant, status, limit - 1);
        PageTurns(Wanted(older, merchant, status), rows[|rows| - 1], limit);
      } else {
        ListIsFirstPage(older, merchant, status, limit);
      }
    } else {
      PageEnds(Wanted(rows, merchant, status), limit);
    }
  }

  lemma PageTurns(found: seq<Request>, x: Request, limit: nat)
    requires limit > 0
    ensures Page(found + [x], 0, limit) == [x] + Page(found, 0, limit - 1)
  {
  }

  lemma PageEnds(found: seq<Request>, limit: nat)
    ensures found == [] || limit == 0 ==> Page(found, 0, limit) == []
  {
  }

  /** The first listed row with this payload. */
  function Match(list: seq<Request>, payload: string): (r: Option<Request>)
    ensures r.Some? ==> r.value in list && r.value.qrPayload == payload
    ensures r.Some? ==> exists i :: 0 <= i < |list| && list[i] == r.value && forall j :: 0 <= j < i ==>
        list[j].qrPayload != payload
    ensures r.None? ==> forall x :: x in list ==> x.qrPayload != payload
  {
    if list == [] then None else if list[0].qrPayload == payload then Some(list[0]) else Match(list[1..], payload)
  }

  /** The status guard before the transfer. */
  function Guard(status: Status): Option<Error> {
    match status
    case Pending => None
    case Paid => Some(RequestAlreadyPaid)
    case Expired => Some(RequestExpired)
    case Cancelled => Some(RequestCancelled)
  }

  const DEFAULT_EXPIRY_SECONDS := 900

  /** How long a request lives, in nanoseconds. The product of seconds and nanoseconds wraps. */
  function Lifetime(expirySecs: int): int64 {
    WrapInt64((if expirySecs <= 0 then DEFAULT_EXPIRY_SECONDS else expirySecs) * Q.NANOS)
  }

  /** The row a merchant's new request becomes. */
  function NewRequest(mac: Q.MacFunction, key: string, id: Uuid, merchant: Uuid, amount: int, reference: GoString,
                      description: GoString, expirySecs: int, now: int): Request
  {
    var expiresAt := now + Lifetime(expirySecs);
    Request(id, merchant, amount, reference, description,
            Q.BuildURI(mac, key, merchant, amount, reference, description, expiresAt), Pending, None, None, expiresAt,
                now, None)
  }

  /** How many characters a byte string has: VARCHAR counts those, and a UTF-8 character has one byte that continues no
      other. */
  function Characters(s: string): (n: nat)
    ensures n <= |s| && ((forall i :: 0 <= i < |s| ==> s[i] < 0x80 as char) ==> n == |s|)
  {
    if s == "" then 0 else (if 0x80 as char <= s[0] < 0xC0 as char then 0 else 1) + Characters(s[1..])
  }

  /** A TIMESTAMPTZ holds times from 4714-11-24 BC until 294277-01-01. */
  const FIRST_TIMESTAMP := -210_866_803_200 * Q.NANOS
  const END_OF_TIMESTAMPS := 9_224_318_016_000 * Q.NANOS

  /** Every constraint on a new payment_requests row. */
  predicate Storable(rows: seq<Request>, merchants: set<Uuid>, r: Request) {
    && IndexOf(rows, r.id) == |rows| && r.merchant in merchants && 0 < r.amount <= INT64_MAX
    && Characters(r.reference) <= 64 && Characters(r.description) <= 500
    && FIRST_TIMESTAMP <= r.createdAt < r.expiresAt < END_OF_TIMESTAMPS
  }

  /** A request lives as long as was asked for, in seconds, exactly up to about 292 years: every longer lifetime
      wraps. */
  lemma LifetimeExactlyWhen(expirySecs: int64)
    ensures Lifetime(expirySecs) == (if expirySecs <= 0 then 900 else expirySecs) * 1_000_000_000
            <==> expirySecs <= 9_223_372_036
  {
  }

  /** The first lifetime that wraps is below zero: the row would expire before it is created, and is refused. */
  lemma LongLifetimeIsRefused(rows: seq<Request>, merchants: set<Uuid>, r: Request)
    requires r.expiresAt == r.createdAt + Lifetime(9_223_372_037)
    ensures Lifetime(9_223_372_037) < 0 && !Storable(rows, merchants, r)
  {
  }

  /** Twice as long, and one wraps above zero: where a request for one second is stored, one for 584 years is stored
      too, and expires after 0.29 seconds. */
  lemma LongLifetimeIsShort(
    rows: seq<Request>, merchants: set<Uuid>, mac: Q.MacFunction, key: string, id: Uuid, merchant: Uuid, amount: int,
    reference: GoString, description: GoString, now: int)
    requires Storable(rows, merchants, NewRequest(mac, key, id, merchant, amount, reference, description, 1, now))
    ensures var r := NewRequest(mac, key, id, merchant, amount, reference, description, 18_446_744_074, now);
            Storable(rows, merchants, r) && r.expiresAt == now + 290_448_384
  {
    hide Q.BuildURI, Characters;
  }

  /** The transfer a scanned URI asks for. */
  function PaymentParams(payer: Uuid, merchantWallet: Uuid, uri: Q.Params, key: string): L.TransferParams {
    L.TransferParams(payer, merchantWallet, uri.amount, uri.reference, key, "", Some(L.TypePayment))
  }

  /** What never changes about a row. */
  predicate SameOffer(r: Request, q: Request) {
    && r.id == q.id && r.merchant == q.merchant && r.amount == q.amount && r.reference == q.reference
    && r.description == q.description && r.qrPayload == q.qrPayload && r.expiresAt == q.expiresAt
        && r.createdAt == q.createdAt
  }
}
