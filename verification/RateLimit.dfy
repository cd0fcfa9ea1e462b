/** The rate limiter: a Redis counter whose expiry every request renews, and the bound it puts on admitted requests. */
module RateLimit {
  import opened Wrappers

  /** A counter and when it runs out; None when no expiry was ever set. */
  datatype Counter = Counter(count: nat, expiresAt: Option<int>)

  type Keys = map<string, Counter>

  /** Whether the two piped commands were carried out, and whether the caller got the answer. */
  datatype Pipe = Answered | NothingDone | OnlyIncremented | AnswerLost

  datatype Decision = Served(remaining: int) | Refused(retryAfter: int) | FailedOpen

  predicate Alive(db: Keys, key: string, now: int) {
    key in db && (db[key].expiresAt.Some? ==> now < db[key].expiresAt.value)
  }

  /** INCR: an expired or missing key starts again from zero, without an expiry. */
  function Incr(db: Keys, key: string, now: int): Keys {
    if Alive(db, key, now) then db[key := Counter(db[key].count + 1, db[key].expiresAt)]
        else db[key := Counter(1, None)]
  }

  /** EXPIRE without NX: the expiry moves, whether or not there was one. */
  function Expire(db: Keys, key: string, ttl: int, now: int): Keys {
    if key in db then db[key := Counter(db[key].count, Some(now + ttl))] else db
  }

  function After(db: Keys, key: string, ttl: int, now: int, pipe: Pipe): Keys {
    match pipe
    case NothingDone => db
    case OnlyIncremented => Incr(db, key, now)
    case _ => Expire(Incr(db, key, now), key, ttl, now)
  }

  function Decide(db: Keys, key: string, limit: int, window: int, now: int, pipe: Pipe): Decision {
    if pipe != Answered then FailedOpen
    else
      var count := if Alive(db, key, now) then db[key].count + 1 else 1;
      if count > limit then Refused(window) else Served(if limit - count > 0 then limit - count else 0)
  }

  class Client {
    var keys: Keys

    constructor ()
      ensures keys == map[]
    {
      keys := map[];
    }

    method IncrWithExpiry(key: string, ttl: int, now: int, pipe: Pipe) returns (r: Option<nat>)
      modifies this
      ensures keys == After(old(keys), key, ttl, now, pipe)
      ensures r == if pipe == Answered then Some(if Alive(old(keys), key, now) then old(keys)[key].count + 1 else 1)
          else None
      ensures forall k :: k != key ==> (k in keys <==> k in old(keys)) && (k in keys ==> keys[k] == old(keys)[k])
      ensures pipe == NothingDone ==> keys == old(keys)
      ensures pipe != NothingDone ==>
                var was := old(keys);
                var counts := key in was && (was[key].expiresAt.Some? ==> now < was[key].expiresAt.value);
                && key in keys && keys[key].count == (if counts then was[key].count + 1 else 1)
                && keys[key].expiresAt == if pipe != OnlyIncremented then Some(now + ttl)
                                          else if counts then was[key].expiresAt else None
    {
      if pipe == NothingDone {
        return None;
      }
      if key in keys && keys[key].expiresAt.Some? && keys[key].expiresAt.value <= now {
        keys := keys - {key};
      }
      var count := if key in keys then keys[key].count + 1 else 1;
      keys := keys[key := Counter(count, if key in keys then keys[key].expiresAt else None)];
      if pipe == OnlyIncremented {
        return None;
      }
      keys := keys[key := Counter(count, Some(now + ttl))];
      r := if pipe == Answered then Some(count) else None;
    }
  }

  class Limiter {
    const redis: Client
    const limit: int
    const window: int

    constructor (redis: Client, limit: int, window: int)
      ensures this.redis == redis && this.limit == limit && this.window == window
    {
      this.redis, this.limit, this.window := redis, limit, window;
    }

    /** A Redis failure lets the request through. */
    method Handle(key: string, now: int, pipe: Pipe) returns (d: Decision)
      modifies redis
      ensures d == Decide(old(redis.keys), key, limit, window, now, pipe)
      ensures redis.keys == After(old(redis.keys), key, window, now, pipe)
      ensures d == FailedOpen <==> pipe != Answered
      ensures pipe == Answered ==>
                && key in redis.keys
                && d == if redis.keys[key].count > limit then Refused(window)
                        else Served(limit - redis.keys[key].count)
    {
      var count := redis.IncrWithExpiry(key, window, now, pipe);
      if count.None? {
        return FailedOpen;
      }
      if count.value > limit {
        return Refused(window);
      }
      d := Served(if limit - count.value > 0 then limit - count.value else 0);
    }
  }

  // ---- every timed sequence of requests

  datatype Request = Request(key: string, now: int, pipe: Pipe)

  function Run(db: Keys, rs: seq<Request>, window: int): Keys
    decreases rs
  {
    if rs == [] then db else Run(After(db, rs[0].key, window, rs[0].now, rs[0].pipe), rs[1..], window)
  }

  /** How many requests for this key the limiter counted and let through. */
  function Admitted(db: Keys, rs: seq<Request>, key: string, limit: int, window: int): nat
    decreases rs
  {
    if rs == [] then 0
    else
      var r := rs[0];
      (if r.key == key && Decide(db, key, limit, window, r.now, r.pipe).Served? then 1 else 0)
      + Admitted(After(db, r.key, window, r.now, r.pipe), rs[1..], key, limit, window)
  }

  predicate InOrder(rs: seq<Request>) { forall i, j :: 0 <= i < j < |rs| ==> rs[i].now <= rs[j].now }

  /** The counter outlives all these requests. */
  predicate Outlives(db: Keys, rs: seq<Request>, key: string) {
    key in db && (db[key].expiresAt.Some? ==> forall i :: 0 <= i < |rs| ==> rs[i].now < db[key].expiresAt.value)
  }

  lemma {:induction false} LiveCounterAdmitsTheRest(db: Keys, rs: seq<Request>, key: string, limit: int, window: int)
    requires InOrder(rs) && (forall i :: 0 <= i < |rs| ==> rs[i].now - rs[0].now < window) && Outlives(db, rs, key)
    ensures Admitted(db, rs, key, limit, window) <= if limit > db[key].count then limit - db[key].count else 0
    decreases rs
  {
    if rs != [] {
      var r := rs[0];
      var next := After(db, r.key, window, r.now, r.pipe);
      assert Alive(db, key, r.now);
      assert Outlives(next, rs[1..], key) && next[key].count >= db[key].count;
      assert r.key == key && r.pipe == Answered ==> next[key].count == db[key].count + 1;
      hide After, Outlives;
      LiveCounterAdmitsTheRest(next, rs[1..], key, limit, window);
    }
  }

  /** From any stored counters: requests that all fall within less than one window have at most `limit` let through by
      the limiter, whatever else runs and however Redis fails in between. */
  lemma {:induction false} AtMostLimitPerWindow(db: Keys, rs: seq<Request>, key: string, limit: nat, window: int)
    requires InOrder(rs) && (forall i :: 0 <= i < |rs| ==> rs[i].now - rs[0].now < window)
    ensures Admitted(db, rs, key, limit, window) <= limit
    decreases rs
  {
    if rs != [] {
      var r := rs[0];
      var next := After(db, r.key, window, r.now, r.pipe);
      if r.key == key && r.pipe != NothingDone && r.pipe != OnlyIncremented {
        assert Outlives(next, rs[1..], key);
        assert next[key].count >= 1
            && (Decide(db, key, limit, window, r.now, r.pipe).Served? ==> next[key].count <= limit);
        LiveCounterAdmitsTheRest(next, rs[1..], key, limit, window);
      } else {
        AtMostLimitPerWindow(next, rs[1..], key, limit, window);
      }
    }
  }

  /** In a whole run, for every stretch i..j of it. */
  lemma NoShortIntervalExceedsLimit(rs: seq<Request>, i: nat, j: nat, key: string, limit: nat, window: int)
    requires i <= j <= |rs| && InOrder(rs) && (i < j ==> rs[j - 1].now - rs[i].now < window)
    ensures Admitted(Run(map[], rs[..i], window), rs[i..j], key, limit, window) <= limit
  {
    AtMostLimitPerWindow(Run(map[], rs[..i], window), rs[i..j], key, limit, window);
  }

  // ---- when exactly a request is let through

  /** Requests for the key at the end of the sequence, back to the last pause of a whole window. */
  function Streak(times: seq<int>, window: int): nat {
    if times == [] then 0
    else if |times| > 1 && times[|times| - 1] - times[|times| - 2] < window
    then 1 + Streak(times[..|times| - 1], window)
    else 1
  }

  function TimesOf(rs: seq<Request>, key: string): seq<int> {
    if rs == [] then []
    else TimesOf(rs[..|rs| - 1], key) + if rs[|rs| - 1].key == key then [rs[|rs| - 1].now] else []
  }

  lemma {:induction false} RunAppend(db: Keys, rs: seq<Request>, r: Request, window: int)
    ensures Run(db, rs + [r], window) == After(Run(db, rs, window), r.key, window, r.now, r.pipe)
    decreases rs
  {
    if rs == [] {
      assert (rs + [r])[1..] == [] && (rs + [r])[0] == r;
      assert Run(db, rs + [r], window) == Run(After(db, r.key, window, r.now, r.pipe), [], window);
    } else {
      assert (rs + [r])[1..] == rs[1..] + [r];
      RunAppend(After(db, rs[0].key, window, rs[0].now, rs[0].pipe), rs[1..], r, window);
    }
  }

  /** What the counter of a key is after requests for it at these times. */
  ghost predicate Counts(db: Keys, key: string, times: seq<int>, window: int) {
    if times == [] then key !in db
    else key in db && db[key] == Counter(Streak(times, window), Some(times[|times| - 1] + window))
  }

  lemma CountsOwn(db: Keys, key: string, times: seq<int>, now: int, window: int)
    requires Counts(db, key, times, window)
    ensures Counts(After(db, key, window, now, Answered), key, times + [now], window)
  {
    assert (times + [now])[..|times|] == times;
  }

  lemma CountsOther(db: Keys, key: string, times: seq<int>, other: string, now: int, window: int)
    requires Counts(db, key, times, window) && other != key
    ensures Counts(After(db, other, window, now, Answered), key, times, window)
  {
    hide Streak;
  }

  /** The counter is the streak, and it runs out one window after the key's last request. */
  lemma {:induction false} CounterIsStreak(rs: seq<Request>, key: string, window: int)
    requires forall i :: 0 <= i < |rs| ==> rs[i].pipe == Answered
    ensures Counts(Run(map[], rs, window), key, TimesOf(rs, key), window)
    decreases |rs|
  {
    if rs != [] {
      var front, r := rs[..|rs| - 1], rs[|rs| - 1];
      CounterIsStreak(front, key, window);
      assert rs == front + [r];
      RunAppend(map[], front, r, window);
      hide Counts, After, Run;
      if r.key == key {
        CountsOwn(Run(map[], front, window), key, TimesOf(front, key), r.now, window);
      } else {
        CountsOther(Run(map[], front, window), key, TimesOf(front, key), r.key, r.now, window);
        assert TimesOf(rs, key) == TimesOf(front, key);
      }
    }
  }

  /** While Redis answers, a request is let through exactly when its streak is within the limit, and told how many are
      left; past it, it is told to wait a whole window. The window restarts at every request, refused ones included: it
      does not end one window after the first. */
  lemma AdmittedExactlyWhen(rs: seq<Request>, r: Request, limit: int, window: int)
    requires r.pipe == Answered && forall i :: 0 <= i < |rs| ==> rs[i].pipe == Answered
    ensures Decide(Run(map[], rs, window), r.key, limit, window, r.now, r.pipe).Served?
        <==> Streak(TimesOf(rs + [r], r.key), window) <= limit
    ensures Decide(Run(map[], rs, window), r.key, limit, window, r.now, r.pipe)
            == var n := Streak(TimesOf(rs + [r], r.key), window);
               if n <= limit then Served(limit - n) else Refused(window)
  {
    CounterIsStreak(rs, r.key, window);
    assert (rs + [r])[..|rs|] == rs;
    var times := TimesOf(rs, r.key);
    assert TimesOf(rs + [r], r.key) == times + [r.now];
    assert (times + [r.now])[..|times|] == times;
  }

  /** Whatever ran before, a request that gets no answer from Redis is let through uncounted. */
  lemma UnansweredIsServed(db: Keys, rs: seq<Request>, r: Request, limit: int, window: int)
    ensures Decide(Run(db, rs, window), r.key, limit, window, r.now, r.pipe) == FailedOpen <==> r.pipe != Answered
  {
    hide Run;
  }

  /** A client that keeps asking without a pause stays shut out, however much time passes. */
  lemma {:induction false} SteadyStreamStreak(times: seq<int>, window: int)
    requires forall i :: 0 < i < |times| ==> times[i] - times[i - 1] < window
    ensures Streak(times, window) == |times|
  {
    if |times| > 1 {
      SteadyStreamStreak(times[..|times| - 1], window);
    }
  }
}
