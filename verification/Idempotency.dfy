/** The Redis cache of finished payment replies. */
module Idempotency {
  import opened Wrappers
  import opened Text
  import opened Uuids
  import opened LedgerModel

  const KEY_PREFIX := "idempotency:"

  /** The reply of a payment, reduced to the transaction it names and the balance it shows. */
  datatype SendReply = SendReply(txn: Option<Txn>, newBalance: int)

  /** Decoding a reply of another kind fills in nothing. */
  const BLANK_REPLY := SendReply(None, 0)

  /** What a Redis key can hold: a payment's reply, an issuance's reply, or bytes that do not decode. */
  datatype Cached = Payment(reply: SendReply) | IssuanceReply(issuance: Uuid) | Garbage

  /** `buildKey`. */
  function BuildKey(scope: string, key: string): string {
    KEY_PREFIX + (scope + (":" + key))
  }

  /** Two UUID scopes share a Redis key only when scope and key are both the same. */
  lemma BuildKeyInjective(v: Uuid, w: Uuid, k: string, l: string)
    requires BuildKey(String(v), k) == BuildKey(String(w), l)
    ensures v == w && k == l
  {
    StringShape(v);
    StringShape(w);
    TextOrderIsByteOrder(v, w);
    hide String, Before;
    ConcatSplit(KEY_PREFIX, KEY_PREFIX, String(v) + (":" + k), String(w) + (":" + l));
    ConcatSplit(String(v), String(w), ":" + k, ":" + l);
    ConcatSplit(":", ":", k, l);
  }

  /** Whatever the scopes: two pairs share a Redis key exactly when they are the same, or the longer scope is the
      shorter one continued past a separator by what the other key begins with. */
  lemma BuildKeyEqualExactlyWhen(s: string, k: string, t: string, l: string)
    ensures BuildKey(s, k) == BuildKey(t, l) <==> (s == t && k == l) || Continues(s, k, t, l) || Continues(t, l, s, k)
  {
    if BuildKey(s, k) == BuildKey(t, l) {
      ConcatSplit(KEY_PREFIX, KEY_PREFIX, s + (":" + k), t + (":" + l));
      if |s| == |t| {
        ConcatSplit(s, t, ":" + k, ":" + l);
        ConcatSplit(":", ":", k, l);
      } else if |s| < |t| {
        LongerContinues(s, k, t, l);
      } else {
        LongerContinues(t, l, s, k);
      }
    } else {
      assert Continues(s, k, t, l) ==> BuildKey(s, k) == BuildKey(t, l) by { ContinuedIsEqual(s, k, t, l); }
      assert Continues(t, l, s, k) ==> BuildKey(s, k) == BuildKey(t, l) by { ContinuedIsEqual(t, l, s, k); }
    }
  }

  ghost predicate Continues(s: string, k: string, t: string, l: string) {
    exists m: string :: t == s + ":" + m && k == m + ":" + l
  }

  lemma LongerContinues(s: string, k: string, t: string, l: string)
    requires s + (":" + k) == t + (":" + l) && |s| < |t|
    ensures Continues(s, k, t, l)
  {
    var m, text := t[|s| + 1..], s + (":" + k);
    assert s == text[..|s|] && t == text[..|t|] && text[|s|] == ':';
    assert t == s + ":" + m;
    assert k == text[|s| + 1..] == m + ":" + l;
  }

  lemma ContinuedIsEqual(s: string, k: string, t: string, l: string)
    ensures Continues(s, k, t, l) ==> BuildKey(s, k) == BuildKey(t, l)
  {
    if m: string :| t == s + ":" + m && k == m + ":" + l {
      assert s + (":" + (m + ":" + l)) == (s + ":" + m) + (":" + l);
    }
  }

  /** A payment key never has the prefix of the other Redis users. */
  lemma PrefixApart(k: string, scope: string, key: string)
    requires k == BuildKey(scope, key)
    ensures KEY_PREFIX <= k
  {
  }

  class Store {
    var redis: map<string, Cached>

    /** A hit exactly when Redis answers, the key is there and its bytes decode; the reply is then the stored one. */
    method Check(scope: string, key: string, fails: bool) returns (r: Option<SendReply>)
      ensures var k := BuildKey(scope, key);
              && (r.Some? <==> !fails && k in redis && redis[k] != Garbage)
              && (r.Some? && redis[k].Payment? ==> r.value == redis[k].reply)
              && (r.Some? && redis[k].IssuanceReply? ==> r.value == BLANK_REPLY)
      ensures r == CheckResult(redis, BuildKey(scope, key), fails)
    {
      var k := BuildKey(scope, key);
      if fails {
        return None;
      }
      if k !in redis {
        return None;
      }
      match redis[k]
      case Garbage => r := None;
      case Payment(reply) => r := Some(reply);
      case IssuanceReply(_) => r := Some(BLANK_REPLY);
    }

    /** A taken key keeps its value; a free key gets this reply; no other key changes. */
    method StoreReply(scope: string, key: string, reply: SendReply, fails: bool)
      modifies this
      ensures fails || BuildKey(scope, key) in old(redis) ==> redis == old(redis)
      ensures var k := BuildKey(scope, key);
              !fails && k !in old(redis) ==>
                && redis.Keys == old(redis).Keys + {k} && redis[k] == Payment(reply)
                && forall other :: other in old(redis) ==> redis[other] == old(redis)[other]
      ensures !fails ==> redis == SetNX(old(redis), BuildKey(scope, key), Payment(reply))
    {
      var k := BuildKey(scope, key);
      if fails {
        return;
      }
      if k !in redis {
        redis := redis[k := Payment(reply)];
      }
    }
  }

  function CheckResult(redis: map<string, Cached>, k: string, fails: bool): Option<SendReply> {
    if fails || k !in redis then None
    else match redis[k]
      case Payment(reply) => Some(reply)
      case IssuanceReply(_) => Some(BLANK_REPLY)
      case Garbage => None
  }

  function SetNX(redis: map<string, Cached>, k: string, v: Cached): map<string, Cached> {
    if k in redis then redis else redis[k := v]
  }

  /** A run of replies stored under keys. */
  function Stores(redis: map<string, Cached>, writes: seq<(string, SendReply)>): map<string, Cached> {
    if writes == [] then redis
    else
      var last := writes[|writes| - 1];
      SetNX(Stores(redis, writes[..|writes| - 1]), last.0, Payment(last.1))
  }

  /** The reply of the first write to a key. */
  function FirstFor(writes: seq<(string, SendReply)>, k: string): (r: Option<SendReply>) {
    if writes == [] then None
    else if writes[0].0 == k then Some(writes[0].1) else FirstFor(writes[1..], k)
  }

  lemma {:induction false} FirstForAppend(writes: seq<(string, SendReply)>, x: (string, SendReply), k: string)
    ensures FirstFor(writes + [x], k)
            == if FirstFor(writes, k).Some? then FirstFor(writes, k) else if x.0 == k then Some(x.1) else None
  {
    if writes == [] {
      assert (writes + [x])[1..] == [];
    } else {
      assert (writes + [x])[1..] == writes[1..] + [x];
      FirstForAppend(writes[1..], x, k);
    }
  }

  /** However many replies race to be stored, a key that was taken answers as before, and a free one answers with the
      first reply stored under it. */
  lemma {:induction false} FirstReplyIsServed(redis: map<string, Cached>, writes: seq<(string, SendReply)>, k: string)
    ensures CheckResult(Stores(redis, writes), k, false)
            == if k in redis then CheckResult(redis, k, false) else FirstFor(writes, k)
    ensures k in Stores(redis, writes) <==> k in redis || FirstFor(writes, k).Some?
  {
    if writes != [] {
      var front, last := writes[..|writes| - 1], writes[|writes| - 1];
      FirstReplyIsServed(redis, front, k);
      FirstForAppend(front, last, k);
      assert front + [last] == writes;
    }
  }
}
