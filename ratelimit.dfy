/**
 * The `RateLimiter` each catalog worker owns. discogs.rs and musicbrainz.rs
 * declare the same struct with the same `wait`, so it is modelled once here.
 * `Instant` readings are natural numbers of milliseconds handed in by the
 * caller, and `sleep(d)` is taken to resume exactly `d` later.
 */
module RateLimit {
  import opened Wrappers

  /** Both workers build their limiter with `Duration::from_millis(1100)`. */
  const LOOKUP_INTERVAL: nat := 1100

  /** `Instant::elapsed`: saturates at zero rather than going negative. */
  function Elapsed(last: nat, now: nat): nat {
    if now >= last then now - last else 0
  }

  function Max(a: nat, b: nat): nat {
    if a >= b then a else b
  }

  /** How long `wait` sleeps when it is called at `now`. */
  function SleepFor(last: Option<nat>, interval: nat, now: nat): (d: nat)
    ensures d <= interval
    ensures last.None? ==> d == 0
    ensures last.Some? && last.value <= now ==> now + d == Max(now, last.value + interval)
  {
    if last.Some? && Elapsed(last.value, now) < interval then interval - Elapsed(last.value, now) else 0
  }

  /** The `last` a limiter holds after `wait` has been called at each of `calls`, in order. */
  function LastAfter(last: Option<nat>, interval: nat, calls: seq<nat>): (r: Option<nat>)
    ensures calls == [] ==> r == last
    ensures calls != [] ==> r.Some? && r.value >= calls[|calls| - 1]
  {
    if calls == [] then last
    else
      var prev := LastAfter(last, interval, calls[..|calls| - 1]);
      var now := calls[|calls| - 1];
      Some(now + SleepFor(prev, interval, now))
  }

  /** One more `wait` call, at `now`, after `calls`. */
  lemma LastAfterStep(last: Option<nat>, interval: nat, calls: seq<nat>, now: nat)
    ensures LastAfter(last, interval, calls + [now]) == Some(now + SleepFor(LastAfter(last, interval, calls), interval, now))
  {
    assert (calls + [now])[..|calls|] == calls;
  }

  /** The times at which successive `wait` calls return, each call made at `calls[i]`. */
  function Resumes(last: Option<nat>, interval: nat, calls: seq<nat>): (r: seq<nat>)
    ensures |r| == |calls|
  {
    seq(|calls|, i requires 0 <= i < |calls| => LastAfter(last, interval, calls[..i + 1]).value)
  }

  /**
   * Calls made one after another (each no earlier than the previous one
   * returned) come back at least `interval` apart, and the first call of a
   * fresh limiter does not sleep.
   */
  lemma {:induction false} ResumesSpaced(interval: nat, calls: seq<nat>)
    requires forall i :: 0 < i < |calls| ==> calls[i] >= Resumes(None, interval, calls)[i - 1]
    ensures var r := Resumes(None, interval, calls);
      && (calls != [] ==> r[0] == calls[0])
      && (forall i :: 0 < i < |calls| ==> r[i] >= r[i - 1] + interval)
  {
    var r := Resumes(None, interval, calls);
    if calls != [] {
      assert calls[..1][..0] == [];
    }
    forall i | 0 < i < |calls|
      ensures r[i] >= r[i - 1] + interval
    {
      assert calls[..i + 1][..i] == calls[..i];
      var prev := LastAfter(None, interval, calls[..i]);
      assert prev == Some(r[i - 1]);
    }
  }

  class RateLimiter {
    var last: Option<nat>
    const interval: nat

    /** `RateLimiter::new` */
    constructor (interval: nat)
      ensures this.interval == interval && last == None
    {
      this.interval := interval;
      last := None;
    }

    /** `wait`: sleeps out what is left of the interval since `last`, then records when it resumed. */
    method Wait(now: nat) returns (resumed: nat)
      modifies this
      ensures resumed == now + SleepFor(old(last), interval, now)
      ensures last == Some(resumed)
    {
      var slept := 0;
      if last.Some? {
        var elapsed := Elapsed(last.value, now);
        if elapsed < interval {
          slept := interval - elapsed;
        }
      }
      resumed := now + slept;
      last := Some(resumed);
    }
  }
}
