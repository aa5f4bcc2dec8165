/**
 * An integer token bucket standing in for golang.org/x/time/rate's Limiter.
 *
 * Time is counted in whole seconds. Tokens are counted in sixtieths of a
 * request ("units"), so a refill rate of requestsPerMinute / 60 requests per
 * second is exactly `ratePerMinute` units per second, and a bucket of
 * `burst` requests holds `burst * Scale` units.
 */
module TokenBucket {

  /** Units per request. */
  const Scale: int := 60

  datatype Bucket = Bucket(ratePerMinute: int, burst: int, units: int, last: int)

  /** The most units the bucket can hold. */
  function Capacity(b: Bucket): int
  {
    b.burst * Scale
  }

  function Min(a: int, b: int): int
  {
    if a <= b then a else b
  }

  /** The bucket a new limiter starts with: full, last updated at `now`. */
  function NewBucket(ratePerMinute: int, burst: int, now: int): (b: Bucket)
    ensures b.ratePerMinute == ratePerMinute && b.burst == burst
    ensures forall t :: t <= now ==> Available(b, t) == burst * Scale
  {
    Bucket(ratePerMinute, burst, burst * Scale, now)
  }

  /** Seconds elapsed since the last update; a clock that went backwards counts as none. */
  function Elapsed(b: Bucket, now: int): nat
  {
    if now > b.last then now - b.last else 0
  }

  /**
   * The units available at `now`: what was left at the last update plus the
   * refill since, capped at the capacity.
   */
  function Available(b: Bucket, now: int): (u: int)
    ensures u <= Capacity(b)
    ensures now <= b.last ==> u == Min(Capacity(b), b.units)
  {
    Min(Capacity(b), b.units + b.ratePerMinute * Elapsed(b, now))
  }

  /** The outcome of one admission check: the decision and the bucket afterwards. */
  datatype Step = Step(allowed: bool, bucket: Bucket)

  /**
   * Allow: take one request's worth of units if at least that many are
   * available. A refusal leaves the bucket exactly as it was; an admission
   * records the time and what is left.
   */
  function Allow(b: Bucket, now: int): (r: Step)
    ensures r.allowed <==> Available(b, now) >= Scale
    ensures !r.allowed ==> r.bucket == b
    ensures r.allowed ==> r.bucket.units == Available(b, now) - Scale && r.bucket.last == now
    ensures r.bucket.ratePerMinute == b.ratePerMinute && r.bucket.burst == b.burst
    ensures b.units <= Capacity(b) ==> r.bucket.units <= Capacity(r.bucket)
  {
    var avail := Available(b, now);
    if avail >= Scale then Step(true, b.(units := avail - Scale, last := now))
    else Step(false, b)
  }

  /** The decisions of `k` consecutive admission checks, all made at `now`. */
  function Replay(b: Bucket, now: int, k: nat): (r: seq<bool>)
    ensures |r| == k
    decreases k
  {
    if k == 0 then [] else
      var s := Allow(b, now);
      [s.allowed] + Replay(s.bucket, now, k - 1)
  }

  /**
   * Token conservation at one instant: a bucket last updated at `now` and
   * holding exactly `n` requests admits the first `n` of `k` immediate
   * requests and refuses the rest.
   */
  lemma {:induction false} ReplayDrains(b: Bucket, now: int, n: nat, k: nat)
    requires b.last == now && b.units == n * Scale && b.units <= Capacity(b)
    ensures Replay(b, now, k) == seq(k, i => i < n)
    decreases k
  {
    if k > 0 {
      var s := Allow(b, now);
      assert Available(b, now) == n * Scale;
      if n > 0 {
        assert s.bucket.units == (n - 1) * Scale;
        ReplayDrains(s.bucket, now, n - 1, k - 1);
        assert Replay(b, now, k) == [true] + seq(k - 1, i => i < n - 1);
      } else {
        ReplayDrains(s.bucket, now, n, k - 1);
        assert Replay(b, now, k) == [false] + seq(k - 1, i => i < n);
      }
    }
  }

  /**
   * Starting from a full bucket of capacity `burst`, exactly `burst`
   * immediate requests succeed and the next one is refused.
   */
  lemma FullBucketAdmitsBurst(ratePerMinute: int, burst: nat, now: int)
    ensures Replay(NewBucket(ratePerMinute, burst, now), now, burst + 1)
         == seq(burst, i => true) + [false]
  {
    ReplayDrains(NewBucket(ratePerMinute, burst, now), now, burst, burst + 1);
    assert seq(burst + 1, i => i < burst) == seq(burst, i => true) + [false];
  }

  /**
   * Refill: with no consumption, waiting `dt` more seconds adds
   * `dt * ratePerMinute` units (`dt * ratePerMinute / 60` requests), capped
   * at the capacity.
   */
  lemma Refill(b: Bucket, now: int, dt: nat)
    requires now >= b.last && b.ratePerMinute >= 0
    ensures Available(b, now + dt) == Min(Capacity(b), Available(b, now) + b.ratePerMinute * dt)
  {
  }

  /** With a non-negative rate, waiting never makes fewer units available. */
  lemma AvailableMonotone(b: Bucket, t1: int, t2: int)
    requires t1 <= t2 && b.ratePerMinute >= 0
    ensures Available(b, t1) <= Available(b, t2)
  {
  }
}
