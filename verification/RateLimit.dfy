/** The per-address rate limiter with idle expiry and eviction
    (internal/http_api/middleware_ratelimit.go), against one that never forgets. Time is in seconds. */
module RateLimit {

  // ---------- The token bucket ----------

  /** golang.org/x/time/rate, as assumed: a bucket starts full, refills at `rate`, holds at most `burst`
      tokens, and gives one token per accepted call. A refused call leaves it alone. */
  datatype Bucket = Bucket(tokens: real, last: real)

  datatype Params = Params(rate: real, burst: int)

  function NewBucket(p: Params, now: real): Bucket {
    Bucket(p.burst as real, now)
  }

  /** Tokens the rate yields in `dt` seconds. */
  function Gain(p: Params, dt: real): (g: real)
    ensures dt == 0.0 ==> g == 0.0
    ensures dt >= 0.0 && p.rate >= 0.0 ==> g >= 0.0
  {
    dt * p.rate
  }

  lemma GainAdds(p: Params, a: real, b: real)
    ensures Gain(p, a + b) == Gain(p, a) + Gain(p, b)
  {
  }

  function TokensAt(p: Params, b: Bucket, now: real): real {
    var t := b.tokens + Gain(p, now - b.last);
    if t > p.burst as real then p.burst as real else t
  }

  predicate Accepts(p: Params, b: Bucket, now: real) {
    TokensAt(p, b, now) >= 1.0
  }

  function Take(p: Params, b: Bucket, now: real): Bucket {
    if Accepts(p, b, now) then Bucket(TokensAt(p, b, now) - 1.0, now) else b
  }

  // ---------- The limiter that never forgets ----------

  type Memory = map<string, Bucket>

  function Recall(p: Params, m: Memory, ip: string, now: real): Bucket {
    if ip in m then m[ip] else NewBucket(p, now)
  }

  function Remember(p: Params, m: Memory, ip: string, now: real): Memory {
    m[ip := Take(p, Recall(p, m, ip, now), now)]
  }

  predicate Sensible(p: Params) {
    p.rate > 0.0 && p.burst >= 1
  }

  predicate BucketOk(p: Params, b: Bucket, now: real) {
    0.0 <= b.tokens <= p.burst as real && b.last <= now
  }

  // ---------- The limiter of the service ----------

  const IDLE_LIMIT := 1200.0
  const MAX_ENTRIES := 8000

  datatype Entry = Entry(lim: Bucket, seen: real)

  ghost predicate EntriesOk(p: Params, entries: map<string, Entry>, clock: real) {
    forall ip <- entries :: BucketOk(p, entries[ip].lim, entries[ip].seen) && entries[ip].seen <= clock
  }

  /** The entries are exactly what the limiter that never forgets holds. */
  ghost predicate Tracks(entries: map<string, Entry>, memory: Memory) {
    memory.Keys == entries.Keys && forall ip <- entries :: memory[ip] == entries[ip].lim
  }

  predicate RefillsWhenIdle(p: Params) {
    Gain(p, IDLE_LIMIT) >= p.burst as real
  }

  predicate Stale(entries: map<string, Entry>, ip: string, now: real) {
    ip !in entries || now - entries[ip].seen > IDLE_LIMIT
  }

  function Lim(p: Params, entries: map<string, Entry>, ip: string, now: real): Bucket {
    if Stale(entries, ip, now) then NewBucket(p, now) else entries[ip].lim
  }

  /** The entries after one call, while nothing has to be evicted. */
  function Served(p: Params, entries: map<string, Entry>, ip: string, now: real): map<string, Entry> {
    entries[ip := Entry(Take(p, Lim(p, entries, ip, now), now), now)]
  }

  class IpRateLimiter {
    const enabled: bool
    const p: Params
    var entries: map<string, Entry>
    // what a limiter that never forgets would hold, when the last call came, and whether an entry was
    // ever evicted
    ghost var memory: Memory
    ghost var clock: real
    ghost var evicted: bool

    ghost predicate Valid()
      reads this
    {
      enabled ==>
        && Sensible(p)
        && |entries| <= MAX_ENTRIES
        && EntriesOk(p, entries, clock)
        && (!evicted && RefillsWhenIdle(p) ==> Tracks(entries, memory))
    }

    /** newIPRateLimiter. */
    constructor (enabled: bool, rps: real, burst: int, ghost now: real)
      ensures Valid() && this.enabled == (enabled && rps > 0.0) && entries == map[] && memory == map[] && !evicted
          && clock == now
      ensures this.enabled ==> p == Params(rps, if burst <= 0 then 1 else burst)
    {
      this.enabled := enabled && rps > 0.0;
      this.p := Params(rps, if burst <= 0 then 1 else burst);
      this.entries := map[];
      this.memory, this.clock, this.evicted := map[], now, false;
    }

    /** allow. As long as nothing was evicted and an idle bucket refills within the idle limit, the
        decision is the one of a limiter that never forgets. */
    method Allow(ip: string, now: real) returns (ok: bool)
      requires Valid() && clock <= now
      modifies this
      ensures Valid()
      ensures !enabled ==> ok
      ensures enabled ==>
                && clock == now && memory == Remember(p, old(memory), ip, now)
                && entries.Keys <= old(entries).Keys + {ip} && |entries| <= 8000
                && (evicted == old(evicted) || (evicted && |old(entries)| == 8000 && ip !in old(entries)))
                && (|old(entries)| < 8000 || ip in old(entries) ==>
                      && ok == Accepts(p, Lim(p, old(entries), ip, now), now)
                      && entries == Served(p, old(entries), ip, now))
      ensures enabled && !old(evicted) && RefillsWhenIdle(p) ==>
                ok == Accepts(p, Recall(p, old(memory), ip, now), now)
    {
      if !enabled {
        return true;
      }
      var lim := if Stale(entries, ip, now) then NewBucket(p, now) else entries[ip].lim;
      ok := Accepts(p, lim, now);
      var after := Entry(Take(p, lim, now), now);
      EntryMoves(p, entries, clock, memory, ip, now);
      // the entry is updated through its pointer: if eviction picks this very entry, the update is lost
      entries := entries[ip := after];
      memory := Remember(p, memory, ip, now);
      clock := now;
      if |entries| > MAX_ENTRIES {
        var k :| k in entries;
        RemoveOne(entries, k);
        entries := entries - {k};
        evicted := true;
      }
    }
  }

  /** One call on the tracked limiter and on the one that never forgets. */
  lemma EntryMoves(p: Params, entries: map<string, Entry>, clock: real, memory: Memory, ip: string, now: real)
    requires Sensible(p) && EntriesOk(p, entries, clock) && clock <= now
    ensures EntriesOk(p, Served(p, entries, ip, now), now)
    ensures Tracks(entries, memory) && RefillsWhenIdle(p) ==>
              && Tracks(Served(p, entries, ip, now), Remember(p, memory, ip, now))
              && Accepts(p, Lim(p, entries, ip, now), now) == Accepts(p, Recall(p, memory, ip, now), now)
  {
    var lim := if Stale(entries, ip, now) then NewBucket(p, now) else entries[ip].lim;
    TakeKeepsOk(p, lim, now);
    if Tracks(entries, memory) && RefillsWhenIdle(p) {
      SameBucket(p, entries, clock, memory, ip, now);
    }
  }

  lemma SameBucket(p: Params, entries: map<string, Entry>, clock: real, memory: Memory, ip: string, now: real)
    requires Sensible(p) && EntriesOk(p, entries, clock) && Tracks(entries, memory) && RefillsWhenIdle(p)
    ensures var lim := if Stale(entries, ip, now) then NewBucket(p, now) else entries[ip].lim;
            var own := Recall(p, memory, ip, now);
            Take(p, lim, now) == Take(p, own, now) && Accepts(p, lim, now) == Accepts(p, own, now)
  {
    if Stale(entries, ip, now) && ip in entries {
      IdleBucketIsFull(p, entries[ip].lim, entries[ip].seen, now);
      FreshBucketAccepts(p, now);
    }
  }

  lemma FreshBucketAccepts(p: Params, now: real)
    requires Sensible(p)
    ensures TokensAt(p, NewBucket(p, now), now) == p.burst as real && Accepts(p, NewBucket(p, now), now)
  {
  }

  lemma RemoveOne(m: map<string, Entry>, k: string)
    requires k in m
    ensures |m - {k}| == |m| - 1
  {
    assert (m - {k}).Keys == m.Keys - {k};
  }

  lemma TakeKeepsOk(p: Params, b: Bucket, now: real)
    requires Sensible(p) && BucketOk(p, b, now)
    ensures BucketOk(p, Take(p, b, now), now)
  {
  }

  /** Dropping a bucket that idled past the limit loses nothing: by then it is full. */
  lemma IdleBucketIsFull(p: Params, b: Bucket, seen: real, now: real)
    requires Sensible(p) && BucketOk(p, b, seen) && now - seen > IDLE_LIMIT
    ensures Gain(p, IDLE_LIMIT) >= p.burst as real ==> TokensAt(p, b, now) == p.burst as real
    ensures Gain(p, IDLE_LIMIT) >= p.burst as real ==>
        Take(p, b, now) == Take(p, NewBucket(p, now), now) && Accepts(p, b, now)
  {
    GainAdds(p, IDLE_LIMIT, now - b.last - IDLE_LIMIT);
  }

  /** A burst takes burst / rate seconds to refill, which is more than the idle limit if that is too short. */
  lemma RefillTime(p: Params)
    requires Sensible(p) && Gain(p, IDLE_LIMIT) < p.burst as real
    ensures var t := p.burst as real / p.rate; Gain(p, t) == p.burst as real && t > IDLE_LIMIT
  {
    var t := p.burst as real / p.rate;
    if t <= IDLE_LIMIT { GainAdds(p, t, IDLE_LIMIT - t); }
  }

  // ---------- What an address can get ----------

  datatype Call = Call(ip: string, at: real)

  predicate Chronological(calls: seq<Call>) {
    forall i, k :: 0 <= i < k < |calls| ==> calls[i].at <= calls[k].at
  }

  /** How many of the calls of one address are accepted. */
  function Accepted(p: Params, m: Memory, calls: seq<Call>, ip: string): nat
    decreases |calls|
  {
    if calls == [] then 0
    else
      (if calls[0].ip == ip && Accepts(p, Recall(p, m, ip, calls[0].at), calls[0].at) then 1 else 0)
      + Accepted(p, Remember(p, m, calls[0].ip, calls[0].at), calls[1..], ip)
  }

  ghost predicate MemoryOk(p: Params, m: Memory, now: real) {
    forall ip <- m :: BucketOk(p, m[ip], now)
  }

  function Level(p: Params, m: Memory, ip: string, now: real): real {
    if ip in m then TokensAt(p, m[ip], now) else p.burst as real
  }

  lemma LevelRises(p: Params, m: Memory, ip: string, s: real, t: real)
    requires Sensible(p) && s <= t
    ensures Level(p, m, ip, t) <= Level(p, m, ip, s) + Gain(p, t - s)
  {
    if ip in m { GainAdds(p, s - m[ip].last, t - s); }
  }

  lemma CallLowersLevel(p: Params, m: Memory, c: Call, ip: string)
    requires Sensible(p) && MemoryOk(p, m, c.at)
    ensures MemoryOk(p, Remember(p, m, c.ip, c.at), c.at)
    ensures Level(p, Remember(p, m, c.ip, c.at), ip, c.at) ==
            Level(p, m, ip, c.at) - if c.ip == ip && Accepts(p, Recall(p, m, ip, c.at), c.at) then 1.0 else 0.0
  {
    var b := Recall(p, m, c.ip, c.at);
    TakeKeepsOk(p, b, c.at);
    TokensNow(p, TokensAt(p, b, c.at) - 1.0, c.at);
    TokensNow(p, p.burst as real, c.at);
  }

  lemma TokensNow(p: Params, t: real, now: real)
    requires t <= p.burst as real
    ensures TokensAt(p, Bucket(t, now), now) == t
  {
    assert Gain(p, now - now) == 0.0;
  }

  lemma LevelPositive(p: Params, m: Memory, ip: string, now: real)
    requires Sensible(p) && MemoryOk(p, m, now)
    ensures Level(p, m, ip, now) >= 0.0
  {
    if ip in m {
      var b := m[ip];
      assert BucketOk(p, b, now);
      assert Gain(p, now - b.last) >= 0.0;
    }
  }

  /** What an address may still get until `end`. */
  function Budget(p: Params, m: Memory, ip: string, now: real, end: real): real {
    Level(p, m, ip, now) + Gain(p, end - now)
  }

  function Hit(p: Params, m: Memory, c: Call, ip: string): nat {
    if c.ip == ip && Accepts(p, Recall(p, m, ip, c.at), c.at) then 1 else 0
  }

  lemma BudgetFalls(p: Params, m: Memory, c: Call, ip: string, next: real, end: real)
    requires Sensible(p) && MemoryOk(p, m, c.at) && c.at <= next
    ensures Budget(p, Remember(p, m, c.ip, c.at), ip, next, end) + Hit(p, m, c, ip) as real
         <= Budget(p, m, ip, c.at, end)
  {
    var n := Remember(p, m, c.ip, c.at);
    CallLowersLevel(p, m, c, ip);
    LevelRises(p, n, ip, c.at, next);
    GainAdds(p, next - c.at, end - next);
  }

  lemma LastCall(p: Params, m: Memory, c: Call, ip: string)
    requires Sensible(p) && MemoryOk(p, m, c.at)
    ensures Hit(p, m, c, ip) as real <= Budget(p, m, ip, c.at, c.at)
  {
    CallLowersLevel(p, m, c, ip);
    LevelPositive(p, Remember(p, m, c.ip, c.at), ip, c.at);
  }

  /** A full burst, and what the rate yields over the stretch. */
  function Allowance(p: Params, start: real, end: real): real {
    p.burst as real + Gain(p, end - start)
  }

  lemma BudgetAtMost(p: Params, m: Memory, ip: string, now: real, end: real, n: nat)
    requires n as real <= Budget(p, m, ip, now, end)
    ensures n as real <= Allowance(p, now, end)
  {
  }

  lemma {:induction false} AcceptedWithinBudget(p: Params, m: Memory, calls: seq<Call>, ip: string)
    requires Sensible(p) && Chronological(calls) && calls != [] && MemoryOk(p, m, calls[0].at)
    ensures Accepted(p, m, calls, ip) as real <= Budget(p, m, ip, calls[0].at, calls[|calls| - 1].at)
    decreases |calls|
  {
    var c, rest, end := calls[0], calls[1..], calls[|calls| - 1].at;
    var n := Remember(p, m, c.ip, c.at);
    assert Accepted(p, m, calls, ip) == Hit(p, m, c, ip) + Accepted(p, n, rest, ip);
    if rest == [] {
      LastCall(p, m, c, ip);
    } else {
      assert rest[|rest| - 1].at == end;
      RememberedIsOk(p, m, c, rest[0].at);
      AcceptedWithinBudget(p, n, rest, ip);
      BudgetFalls(p, m, c, ip, rest[0].at, end);
    }
  }

  lemma RememberedIsOk(p: Params, m: Memory, c: Call, now: real)
    requires Sensible(p) && MemoryOk(p, m, c.at) && c.at <= now
    ensures MemoryOk(p, Remember(p, m, c.ip, c.at), now)
  {
    TakeKeepsOk(p, Recall(p, m, c.ip, c.at), c.at);
  }

  /** In any stretch of calls, whatever other addresses do in between, one address gets at most a burst
      plus what the rate yields over the length of the stretch. */
  lemma AcceptedAtMost(p: Params, m: Memory, calls: seq<Call>, ip: string)
    requires Sensible(p) && Chronological(calls) && calls != [] && MemoryOk(p, m, calls[0].at)
    ensures Accepted(p, m, calls, ip) as real <= Allowance(p, calls[0].at, calls[|calls| - 1].at)
  {
    AcceptedWithinBudget(p, m, calls, ip);
    BudgetAtMost(p, m, ip, calls[0].at, calls[|calls| - 1].at, Accepted(p, m, calls, ip));
  }

  // ---------- What an address is sure to get ----------

  function CallsOf(calls: seq<Call>, ip: string): nat {
    if calls == [] then 0 else (if calls[0].ip == ip then 1 else 0) + CallsOf(calls[1..], ip)
  }

  /** Between any two calls of the address the rate yields a token. */
  predicate Patient(p: Params, calls: seq<Call>, ip: string) {
    forall i, k | 0 <= i < k < |calls| && calls[i].ip == ip && calls[k].ip == ip ::
      Gain(p, calls[k].at - calls[i].at) >= 1.0
  }

  /** Each of the address's calls, if it were the next, would find a token. */
  ghost predicate TokensWait(p: Params, m: Memory, calls: seq<Call>, ip: string) {
    forall k | 0 <= k < |calls| && calls[k].ip == ip :: Level(p, m, ip, calls[k].at) >= 1.0
  }

  lemma LevelAfterCall(p: Params, m: Memory, c: Call, t: real)
    requires Sensible(p) && MemoryOk(p, m, c.at) && Gain(p, t - c.at) >= 1.0
    ensures Level(p, Remember(p, m, c.ip, c.at), c.ip, t) >= 1.0
  {
    var b := Take(p, Recall(p, m, c.ip, c.at), c.at);
    TakeKeepsOk(p, Recall(p, m, c.ip, c.at), c.at);
    GainAdds(p, t - c.at, c.at - b.last);
    assert t - b.last == (t - c.at) + (c.at - b.last);
    assert Gain(p, c.at - b.last) >= 0.0;
    assert b.tokens + Gain(p, t - b.last) >= 1.0;
  }

  lemma TokensStillWait(p: Params, m: Memory, calls: seq<Call>, ip: string)
    requires Sensible(p) && calls != [] && MemoryOk(p, m, calls[0].at)
    requires Patient(p, calls, ip) && TokensWait(p, m, calls, ip)
    ensures TokensWait(p, Remember(p, m, calls[0].ip, calls[0].at), calls[1..], ip)
  {
    var c, rest := calls[0], calls[1..];
    forall k | 0 <= k < |rest| && rest[k].ip == ip
      ensures Level(p, Remember(p, m, c.ip, c.at), ip, rest[k].at) >= 1.0
    {
      assert rest[k] == calls[k + 1];
      if c.ip == ip { LevelAfterCall(p, m, c, rest[k].at); }
    }
  }

  /** An address that calls no more often than the rate yields tokens, and finds one for its first call, is never
      refused, whatever the other addresses do. */
  lemma {:induction false} PatientIsServed(p: Params, m: Memory, calls: seq<Call>, ip: string)
    requires Sensible(p) && Chronological(calls) && (calls != [] ==> MemoryOk(p, m, calls[0].at))
    requires Patient(p, calls, ip) && TokensWait(p, m, calls, ip)
    ensures Accepted(p, m, calls, ip) == CallsOf(calls, ip)
    decreases |calls|
  {
    if calls != [] {
      var c, rest := calls[0], calls[1..];
      TokensStillWait(p, m, calls, ip);
      if rest != [] { RememberedIsOk(p, m, c, rest[0].at); }
      assert forall k | 0 <= k < |rest| :: rest[k] == calls[k + 1];
      PatientIsServed(p, Remember(p, m, c.ip, c.at), rest, ip);
      TokensNow(p, p.burst as real, c.at);
      assert c.ip == ip ==> Accepts(p, Recall(p, m, ip, c.at), c.at);
    }
  }

  lemma NewcomerHasTokens(p: Params, m: Memory, calls: seq<Call>, ip: string)
    requires Sensible(p) && ip !in m
    ensures TokensWait(p, m, calls, ip)
  {
  }

  // ---------- The limiter of the service over a stretch of requests ----------

  /** The quantities of the statements, in numbers: tokens come at the rate, and the idle limit is 1200 s. */
  lemma AllowanceInNumbers(p: Params, start: real, end: real)
    ensures Gain(p, end - start) == p.rate * (end - start)
    ensures Allowance(p, start, end) == p.burst as real + p.rate * (end - start)
    ensures RefillsWhenIdle(p) <==> 1200.0 * p.rate >= p.burst as real
  {
  }

  /** Tokens after a while without an accepted call, up to a burst. */
  function Refilled(tokens: real, rate: real, dt: real, burst: real): real {
    if tokens + rate * dt > burst then burst else tokens + rate * dt
  }

  lemma TokensInNumbers(p: Params, b: Bucket, now: real)
    ensures TokensAt(p, b, now) == Refilled(b.tokens, p.rate, now - b.last, p.burst as real)
  {
    AllowanceInNumbers(p, b.last, now);
  }

  lemma TakeInNumbers(p: Params, b: Bucket, now: real)
    ensures var t := Refilled(b.tokens, p.rate, now - b.last, p.burst as real);
      (Accepts(p, b, now) <==> t >= 1.0) && Take(p, b, now) == if t >= 1.0 then Bucket(t - 1.0, now) else b
  {
    TokensInNumbers(p, b, now);
  }

  /** One call, in numbers: an address seen in the last 1200 s has its tokens plus the rate times the time since the
      last accepted call, up to the burst, and gets through if that makes a token, which it then takes; any other
      address gets through on a whole burst. The address was seen now, and no other entry changes. */
  lemma CallInNumbers(p: Params, entries: map<string, Entry>, ip: string, now: real)
    requires Sensible(p)
    ensures var v := Served(p, entries, ip, now);
      v.Keys == entries.Keys + {ip} && (forall k <- entries :: k != ip ==> v[k] == entries[k]) && v[ip].seen == now
    ensures ip in entries && now - entries[ip].seen <= 1200.0 ==>
      var b := entries[ip].lim;
      var t := Refilled(b.tokens, p.rate, now - b.last, p.burst as real);
      (Accepts(p, Lim(p, entries, ip, now), now) <==> t >= 1.0)
      && Served(p, entries, ip, now)[ip].lim == if t >= 1.0 then Bucket(t - 1.0, now) else b
    ensures !(ip in entries && now - entries[ip].seen <= 1200.0) ==>
      Accepts(p, Lim(p, entries, ip, now), now)
      && Served(p, entries, ip, now)[ip].lim == Bucket(p.burst as real - 1.0, now)
  {
    if Stale(entries, ip, now) {
      FreshBucketAccepts(p, now);
    } else {
      TakeInNumbers(p, entries[ip].lim, now);
    }
  }

  /** What the entries hold is in order for any later time. */
  lemma TrackedMemoryOk(p: Params, entries: map<string, Entry>, memory: Memory, clock: real, now: real)
    requires EntriesOk(p, entries, clock) && Tracks(entries, memory) && clock <= now
    ensures MemoryOk(p, memory, now)
  {
  }

  /** What an address gets through: never more than a burst and what the rate yields, and all its calls, if it is new
      and patient. */
  ghost predicate GetsThrough(p: Params, memory: Memory, calls: seq<Call>, ip: string, n: nat) {
    && (calls != [] ==> n as real <= Allowance(p, calls[0].at, calls[|calls| - 1].at))
    && (Patient(p, calls, ip) && ip !in memory ==> n == CallsOf(calls, ip))
  }

  lemma AcceptedBounds(p: Params, entries: map<string, Entry>, memory: Memory, clock: real, calls: seq<Call>,
                       ip: string)
    requires Sensible(p) && EntriesOk(p, entries, clock) && Tracks(entries, memory) && Chronological(calls)
    requires calls != [] ==> clock <= calls[0].at
    ensures GetsThrough(p, memory, calls, ip, Accepted(p, memory, calls, ip))
  {
    if calls != [] {
      TrackedMemoryOk(p, entries, memory, clock, calls[0].at);
      AcceptedAtMost(p, memory, calls, ip);
    }
    if Patient(p, calls, ip) && ip !in memory {
      NewcomerHasTokens(p, memory, calls, ip);
      PatientIsServed(p, memory, calls, ip);
    }
  }

  /** rateLimitMiddleware on a stretch of requests: of one address as many get through as a limiter that never
      forgets would let through, hence at most a burst plus what the rate yields over the stretch, as long as
      nothing is evicted and a burst refills within the idle limit. */
  method Admit(l: IpRateLimiter, calls: seq<Call>, ip: string) returns (n: nat)
    requires l.Valid() && l.enabled && Chronological(calls) && (calls != [] ==> l.clock <= calls[0].at)
    modifies l
    ensures l.Valid()
    ensures !l.evicted && RefillsWhenIdle(l.p) ==> n == Accepted(l.p, old(l.memory), calls, ip)
    ensures !l.evicted && RefillsWhenIdle(l.p) ==> GetsThrough(l.p, old(l.memory), calls, ip, n)
  {
    n := 0;
    ghost var memory := l.memory;
    if !l.evicted && RefillsWhenIdle(l.p) { AcceptedBounds(l.p, l.entries, l.memory, l.clock, calls, ip); }
    var i := 0;
    assert calls[0..] == calls;
    while i < |calls|
      invariant 0 <= i <= |calls| && l.Valid() && (i < |calls| ==> l.clock <= calls[i].at)
      invariant old(l.evicted) ==> l.evicted
      invariant !l.evicted && RefillsWhenIdle(l.p) ==>
        n + Accepted(l.p, l.memory, calls[i..], ip) == Accepted(l.p, memory, calls, ip)
    {
      assert calls[i..][1..] == calls[i + 1..];
      var ok := l.Allow(calls[i].ip, calls[i].at);
      if ok && calls[i].ip == ip { n := n + 1; }
      i := i + 1;
    }
  }

  // ---------- When forgetting shows ----------

  /** How many calls of one address the limiter of the service accepts, while nothing has to be evicted. */
  function AcceptedForgetting(p: Params, entries: map<string, Entry>, calls: seq<Call>, ip: string): nat
    decreases |calls|
  {
    if calls == [] then 0
    else
      var c := calls[0];
      (if c.ip == ip && Accepts(p, Lim(p, entries, ip, c.at), c.at) then 1 else 0)
      + AcceptedForgetting(p, Served(p, entries, c.ip, c.at), calls[1..], ip)
  }

  lemma {:induction false} ForgettingHides(p: Params, entries: map<string, Entry>, memory: Memory, clock: real,
                                           calls: seq<Call>, ip: string)
    requires Sensible(p) && RefillsWhenIdle(p) && Chronological(calls) && (calls != [] ==> clock <= calls[0].at)
    requires EntriesOk(p, entries, clock) && Tracks(entries, memory)
    ensures AcceptedForgetting(p, entries, calls, ip) == Accepted(p, memory, calls, ip)
    decreases |calls|
  {
    if calls != [] {
      var c := calls[0];
      EntryMoves(p, entries, clock, memory, c.ip, c.at);
      ForgettingHides(p, Served(p, entries, c.ip, c.at), Remember(p, memory, c.ip, c.at), c.at, calls[1..], ip);
    }
  }

  function Repeat(c: Call, n: nat): seq<Call> {
    seq(n, _ => c)
  }

  function Only(ip: string, tokens: nat, now: real): map<string, Entry> {
    map[ip := Entry(Bucket(tokens as real, now), now)]
  }

  lemma OneOf(p: Params, entries: map<string, Entry>, c: Call, n: nat, rest: seq<Call>)
    requires Accepts(p, Lim(p, entries, c.ip, c.at), c.at)
    ensures AcceptedForgetting(p, entries, Repeat(c, n + 1) + rest, c.ip)
         == 1 + AcceptedForgetting(p, Served(p, entries, c.ip, c.at), Repeat(c, n) + rest, c.ip)
  {
    assert (Repeat(c, n + 1) + rest)[1..] == Repeat(c, n) + rest;
  }

  /** A bucket of `n` tokens gives `n` calls at the same moment. */
  lemma {:induction false} DrainBucket(p: Params, ip: string, now: real, n: nat, rest: seq<Call>)
    requires Sensible(p) && n <= p.burst
    ensures AcceptedForgetting(p, Only(ip, n, now), Repeat(Call(ip, now), n) + rest, ip)
         == n + AcceptedForgetting(p, Only(ip, 0, now), rest, ip)
  {
    if n == 0 {
      assert Repeat(Call(ip, now), 0) + rest == rest;
    } else {
      TokensNow(p, n as real, now);
      OneOf(p, Only(ip, n, now), Call(ip, now), n - 1, rest);
      assert Served(p, Only(ip, n, now), ip, now) == Only(ip, n - 1, now);
      DrainBucket(p, ip, now, n - 1, rest);
    }
  }

  /** A forgotten address gets a whole burst at once. */
  lemma FreshBurst(p: Params, entries: map<string, Entry>, ip: string, now: real, rest: seq<Call>)
    requires Sensible(p) && entries.Keys <= {ip} && Stale(entries, ip, now)
    ensures AcceptedForgetting(p, entries, Repeat(Call(ip, now), p.burst) + rest, ip)
         == p.burst + AcceptedForgetting(p, Only(ip, 0, now), rest, ip)
  {
    TokensNow(p, p.burst as real, now);
    OneOf(p, entries, Call(ip, now), p.burst - 1, rest);
    assert Served(p, entries, ip, now) == Only(ip, p.burst - 1, now);
    DrainBucket(p, ip, now, p.burst - 1, rest);
  }

  /** A burst, a wait just longer than the idle limit, and another burst: with a rate that refills less than a
      burst in that time, the service lets through more than a limiter that never forgets. */
  lemma ForgettingShows(p: Params) returns (calls: seq<Call>, ip: string)
    requires Sensible(p) && !RefillsWhenIdle(p)
    ensures Chronological(calls) && AcceptedForgetting(p, map[], calls, ip) > Accepted(p, map[], calls, ip)
  {
    ip := "";
    var t := LateButNotFull(p);
    var b, c := Repeat(Call(ip, 0.0), p.burst), Repeat(Call(ip, t), p.burst);
    calls := b + c;
    assert c + [] == c;
    FreshBurst(p, map[], ip, 0.0, c);
    FreshBurst(p, Only(ip, 0, 0.0), ip, t, []);
    AcceptedWithinBudget(p, map[], calls, ip);
    assert calls[0].at == 0.0 && calls[|calls| - 1].at == t;
    assert Accepted(p, map[], calls, ip) as real < (2 * p.burst) as real;
  }

  lemma LateButNotFull(p: Params) returns (t: real)
    requires Sensible(p) && !RefillsWhenIdle(p)
    ensures t > IDLE_LIMIT && Gain(p, t) < p.burst as real
  {
    RefillTime(p);
    var gap := p.burst as real / p.rate - IDLE_LIMIT;
    t := IDLE_LIMIT + gap / 2.0;
    GainAdds(p, t, gap / 2.0);
    GainIsPositive(p, gap / 2.0);
  }

  lemma GainIsPositive(p: Params, dt: real)
    requires Sensible(p) && dt > 0.0
    ensures Gain(p, dt) > 0.0
  {
  }

  /** The condition on the configuration is exact: forgetting idle addresses never changes how many calls anybody
      gets through, for any calls in any order of time, just when the rate refills a whole burst within the idle
      limit. */
  lemma ForgettingIsHarmlessIff(p: Params)
    requires Sensible(p)
    ensures (forall calls: seq<Call>, ip: string | Chronological(calls) ::
               AcceptedForgetting(p, map[], calls, ip) == Accepted(p, map[], calls, ip))
       <==> 1200.0 * p.rate >= p.burst as real
  {
    if RefillsWhenIdle(p) {
      forall calls: seq<Call>, ip: string | Chronological(calls)
        ensures AcceptedForgetting(p, map[], calls, ip) == Accepted(p, map[], calls, ip)
      {
        ForgettingHides(p, map[], map[], if calls == [] then 0.0 else calls[0].at, calls, ip);
      }
    } else {
      var calls, ip := ForgettingShows(p);
    }
  }
}
