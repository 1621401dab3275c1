/**
 * The per-key rate limiter: token buckets, forgotten when idle.
 *
 * Times are seconds since the zero time, tokens are real numbers, and the clock never goes back.
 */
module RateLimit {
  import opened Domain

  const IDLE_TTL := 180.0
  const SWEEP_INTERVAL := 60.0

  datatype Limits = Limits(rps: real, burst: nat) {
    predicate Valid() { rps > 0.0 && burst >= 1 }
  }

  function Lesser(x: real, y: real): real { if x < y then x else y }

  function Ceil(x: real): int { -(-x).Floor }

  function Max(x: int, y: int): int { if x < y then y else x }

  /** A burst of zero is derived from the rate: twice as many requests, and at least one. */
  function BurstFor(rps: real, burst: nat): (r: nat)
    requires rps > 0.0
    ensures r >= 1
    ensures burst > 0 ==> r == burst
    ensures burst == 0 ==> 2.0 * rps <= r as real && (r == 1 || (r - 1) as real < 2.0 * rps)
  {
    if burst == 0 then Max(1, Ceil(2.0 * rps)) else burst
  }

  // The bucket of the rate library

  datatype Bucket = Bucket(tokens: real, last: real, lastEvent: real)

  function NewBucket(l: Limits): Bucket { Bucket(l.burst as real, 0.0, 0.0) }

  /** Tokens at time t, capped by the burst. */
  function Advance(l: Limits, tokens: real, last: real, t: real): real {
    Lesser(l.burst as real, tokens + l.rps * (if t < last then 0.0 else t - last))
  }

  datatype Reservation = Reservation(ok: bool, tokens: real, timeToAct: real)

  /** Takes n tokens, from the future if need be, unless that means waiting longer than allowed. */
  function ReserveN(l: Limits, b: Bucket, t: real, n: nat, maxWait: Option<real>): (Bucket, Reservation)
    requires l.Valid()
  {
    var tokens := Advance(l, b.tokens, b.last, t) - n as real;
    var wait := if tokens < 0.0 then -tokens / l.rps else 0.0;
    var ok := n <= l.burst && (maxWait.None? || wait <= maxWait.value);
    if ok then (Bucket(tokens, t, t + wait), Reservation(true, n as real, t + wait))
    else (b, Reservation(false, 0.0, 0.0))
  }

  function DelayFrom(r: Reservation, t: real): real {
    if r.timeToAct < t then 0.0 else r.timeToAct - t
  }

  /** Returns the tokens of a reservation that has not come due, less those reserved after it. */
  function CancelAt(l: Limits, b: Bucket, r: Reservation, t: real): Bucket
    requires l.Valid()
  {
    var restore := r.tokens - l.rps * (b.lastEvent - r.timeToAct);
    if !r.ok || r.tokens == 0.0 || r.timeToAct < t || restore <= 0.0 then b
    else
      var tokens := Lesser(l.burst as real, Advance(l, b.tokens, b.last, t) + restore);
      var previous := r.timeToAct - r.tokens / l.rps;
      Bucket(tokens, t, if r.timeToAct == b.lastEvent && previous >= t then previous else b.lastEvent)
  }

  datatype Visitor = Visitor(lim: Bucket, seen: real)

  // The limiter as it is meant: a level per key that refills, and nothing else

  datatype Meter = Meter(tokens: real, last: real)

  /** `meters` holds the keys that are remembered; a forgotten or unknown key has a full bucket. */
  datatype Table = Table(meters: map<string, Meter>, lastSweep: real)

  function Level(l: Limits, tbl: Table, key: string, t: real): real {
    if key in tbl.meters then Advance(l, tbl.meters[key].tokens, tbl.meters[key].last, t) else l.burst as real
  }

  /** A request takes one whole token or none. */
  function Take(l: Limits, tbl: Table, key: string, now: real): Table {
    var level := Level(l, tbl, key, now);
    tbl.(meters := tbl.meters[key := Meter(if level >= 1.0 then level - 1.0 else level, now)])
  }

  function Sweep(tbl: Table, now: real): Table {
    if now - tbl.lastSweep < SWEEP_INTERVAL then tbl
    else Table(map k | k in tbl.meters && now - tbl.meters[k].last <= IDLE_TTL :: tbl.meters[k], now)
  }

  /** Whole seconds until the next token, at least one. */
  function RetryAfter(l: Limits, level: real): int
    requires l.Valid()
  {
    Max(1, Ceil((1.0 - level) / l.rps))
  }

  /** No bucket holds a debt, and nothing happened in the future. */
  predicate TableOk(l: Limits, tbl: Table, now: real) {
    && tbl.lastSweep <= now
    && forall k :: k in tbl.meters ==> 0.0 <= tbl.meters[k].tokens <= l.burst as real && tbl.meters[k].last <= now
  }

  function MeterOf(v: Visitor): Meter { Meter(v.lim.tokens, v.lim.last) }

  function MetersOf(visitors: map<string, Visitor>): map<string, Meter> {
    map k | k in visitors :: MeterOf(visitors[k])
  }

  lemma FullBucketStaysFull(l: Limits, now: real)
    requires l.Valid() && now >= 0.0
    ensures var b := NewBucket(l); Advance(l, b.tokens, b.last, now) == l.burst as real
  {
    assert l.rps * now >= 0.0;
  }

  lemma RefusedIsShort(l: Limits, b: Bucket, t: real)
    requires l.Valid()
    ensures ReserveN(l, b, t, 1, Some(0.0)).1.ok <==> Advance(l, b.tokens, b.last, t) >= 1.0
  {
    var short := 1.0 - Advance(l, b.tokens, b.last, t);
    if short > 0.0 { assert short / l.rps > 0.0; }
  }

  /** A reservation that is cancelled at once names the wait and leaves the level as it was. */
  lemma ReservationIsTakenBack(l: Limits, b: Bucket, t: real)
    requires l.Valid() && Advance(l, b.tokens, b.last, t) < 1.0
    ensures var (b1, r) := ReserveN(l, b, t, 1, None);
      && DelayFrom(r, t) == (1.0 - Advance(l, b.tokens, b.last, t)) / l.rps
      && CancelAt(l, b1, r, t).tokens == Advance(l, b.tokens, b.last, t)
      && CancelAt(l, b1, r, t).last == t
  {
    var (b1, r) := ReserveN(l, b, t, 1, None);
    assert b1.last == t && b1.lastEvent == r.timeToAct;
    assert l.rps * (b1.lastEvent - r.timeToAct) == 0.0;
    assert Advance(l, b1.tokens, b1.last, t) == b1.tokens;
  }

  class Limiters {
    const limits: Limits
    var visitors: map<string, Visitor>
    var lastSweep: real

    /** Every bucket was last touched when its key was last seen, and holds no debt. */
    predicate Valid(now: real)
      reads this
    {
      && limits.Valid()
      && TableOk(limits, Contents(), now)
      && forall k :: k in visitors ==> visitors[k].seen == visitors[k].lim.last
    }

    function Contents(): Table
      reads this
    {
      Table(MetersOf(visitors), lastSweep)
    }

    constructor (rps: real, burst: nat)
      requires rps > 0.0
      ensures Valid(0.0) && limits == Limits(rps, BurstFor(rps, burst)) && Contents() == Table(map[], 0.0)
    {
      limits := Limits(rps, BurstFor(rps, burst));
      visitors := map[];
      lastSweep := 0.0;
    }

    method SweepIdle(now: real)
      requires Valid(now)
      modifies this`visitors, this`lastSweep
      ensures Valid(now) && Contents() == Sweep(old(Contents()), now)
      ensures forall k :: k in visitors <==>
                k in old(visitors) && (now - old(lastSweep) < 60.0 || now - old(visitors)[k].seen <= 180.0)
      ensures lastSweep == if now - old(lastSweep) < 60.0 then old(lastSweep) else now
    {
      if now - lastSweep < SWEEP_INTERVAL {
        return;
      }
      lastSweep := now;
      var keys := visitors.Keys;
      while keys != {}
        invariant lastSweep == now && keys <= old(visitors).Keys
        invariant forall k :: k in visitors ==> k in old(visitors) && visitors[k] == old(visitors)[k]
        invariant forall k :: k in old(visitors) ==>
                    (k in visitors <==> k in keys || now - old(visitors)[k].seen <= IDLE_TTL)
        decreases |keys|
      {
        var key :| key in keys;
        if now - visitors[key].seen > IDLE_TTL {
          visitors := visitors - {key};
        }
        keys := keys - {key};
      }
      assert Contents().meters == Sweep(old(Contents()), now).meters;
    }

    /** One request on a bucket of the library: take a token, or ask when there will be one. */
    static method Serve(l: Limits, b: Bucket, now: real) returns (b': Bucket, ok: bool, retryAfter: int)
      requires l.Valid() && 0.0 <= b.tokens <= l.burst as real && b.last <= now
      ensures var level := Advance(l, b.tokens, b.last, now);
        && 0.0 <= b'.tokens <= l.burst as real && b'.last == now
        && ok == (level >= 1.0)
        && b'.tokens == (if ok then level - 1.0 else level)
        && retryAfter == (if ok then 0 else RetryAfter(l, level))
    {
      assert l.rps * (now - b.last) >= 0.0;
      RefusedIsShort(l, b, now);
      var (taken, allowed) := ReserveN(l, b, now, 1, Some(0.0));
      if allowed.ok {
        return taken, true, 0;
      }
      // The reservation names the moment of the next token and is cancelled at once.
      ReservationIsTakenBack(l, b, now);
      var (reserved, later) := ReserveN(l, b, now, 1, None);
      var delay := DelayFrom(later, now);
      return CancelAt(l, reserved, later, now), false, Max(1, Ceil(delay));
    }

    /** Whether the request of a key passes; if not, in how many seconds to come back. */
    method Allow(key: string, now: real) returns (ok: bool, retryAfter: int)
      requires Valid(now) && now >= 0.0
      modifies this`visitors, this`lastSweep
      ensures Valid(now) && Contents() == Take(limits, Sweep(old(Contents()), now), key, now)
      ensures var level := Level(limits, Sweep(old(Contents()), now), key, now);
        ok == (level >= 1.0) && retryAfter == if ok then 0 else RetryAfter(limits, level)
    {
      SweepIdle(now);
      ghost var swept := Contents();
      var bucket := if key in visitors then visitors[key].lim else NewBucket(limits);
      assert Advance(limits, bucket.tokens, bucket.last, now) == Level(limits, swept, key, now) by {
        FullBucketStaysFull(limits, now);
      }
      bucket, ok, retryAfter := Serve(limits, bucket, now);
      visitors := visitors[key := Visitor(bucket, now)];
      assert Contents().meters == Take(limits, swept, key, now).meters;
    }
  }
}
