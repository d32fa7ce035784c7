/**
  The per-session token bucket for hooks (daemon/rpc_server.py).  Tokens and time are real numbers; a
  call is allowed when the bucket, refilled since the last call, holds a whole token.
*/
module RateLimiter {
  import opened Prelude

  type Sid = nat

  datatype Bucket = Bucket(tokens: real, last: real)

  datatype Rate = Rate(capacity: real, refill: real)

  function MinReal(a: real, b: real): real {
    if a < b then a else b
  }

  // What flows into a bucket in a span of time.
  function Inflow(r: Rate, span: real): real {
    span * r.refill
  }

  // A session's bucket is full when it is first seen.
  function Level(r: Rate, b: Option<Bucket>, now: real): real {
    var was := if b.Some? then b.value else Bucket(r.capacity, now);
    MinReal(r.capacity, was.tokens + Inflow(r, now - was.last))
  }

  predicate Allows(r: Rate, b: Option<Bucket>, now: real) {
    Level(r, b, now) >= 1.0
  }

  function After(r: Rate, b: Option<Bucket>, now: real): Bucket {
    Bucket(if Allows(r, b, now) then Level(r, b, now) - 1.0 else Level(r, b, now), now)
  }

  // How many of the calls at these times are allowed.
  function Allowed(r: Rate, b: Option<Bucket>, times: seq<real>): nat
    decreases |times|
  {
    if times == [] then 0
    else (if Allows(r, b, times[0]) then 1 else 0) + Allowed(r, Some(After(r, b, times[0])), times[1..])
  }

  function Through(r: Rate, b: Option<Bucket>, times: seq<real>): Option<Bucket>
    decreases |times|
  {
    if times == [] then b else Through(r, Some(After(r, b, times[0])), times[1..])
  }

  predicate Ordered(times: seq<real>) {
    forall i :: 0 < i < |times| ==> times[i - 1] <= times[i]
  }

  lemma InflowGrows(r: Rate, a: real, b: real)
    requires r.refill >= 0.0 && a <= b
    ensures Inflow(r, a) <= Inflow(r, b)
  {
    assert (b - a) * r.refill >= 0.0;
    assert b * r.refill - a * r.refill == (b - a) * r.refill;
  }

  lemma InflowAdds(r: Rate, a: real, b: real)
    ensures Inflow(r, a) + Inflow(r, b) == Inflow(r, a + b)
    ensures Inflow(r, 0.0) == 0.0
  {
  }

  lemma Inflows(r: Rate, span: real)
    requires r.refill >= 0.0 && span >= 0.0
    ensures Inflow(r, span) >= 0.0
  {
    InflowAdds(r, 0.0, 0.0);
    InflowGrows(r, 0.0, span);
  }

  lemma OrderedTail(times: seq<real>)
    requires Ordered(times) && |times| > 1
    ensures Ordered(times[1..]) && times[0] <= times[1]
  {
    assert forall i :: 0 < i < |times[1..]| ==> times[1..][i - 1] == times[i] && times[1..][i] == times[i + 1];
  }

  // From a bucket with some tokens, no more calls are allowed than there are tokens, with what is
  // refilled on the way.
  lemma {:induction false} AllowedFrom(r: Rate, b: Bucket, times: seq<real>)
    requires r.refill >= 0.0 && b.tokens >= 0.0 && r.capacity >= 0.0
    requires times != [] && Ordered(times) && b.last <= times[0]
    ensures Allowed(r, Some(b), times) as real <= b.tokens + Inflow(r, times[|times| - 1] - b.last)
    decreases |times|
  {
    hide Inflow, Ordered;
    var now, end := times[0], times[|times| - 1];
    Inflows(r, now - b.last);
    var next := After(r, Some(b), now);
    if |times| == 1 {
      assert Allowed(r, Some(next), times[1..]) == 0;
    } else {
      OrderedTail(times);
      AllowedFrom(r, next, times[1..]);
      InflowAdds(r, now - b.last, end - now);
      assert (now - b.last) + (end - now) == end - b.last;
    }
  }

  // Whatever went before: in a stretch of calls lasting `span`, at most the capacity and what is
  // refilled in that time are allowed.
  lemma BurstIsBounded(r: Rate, before: seq<real>, times: seq<real>, span: real)
    requires r.refill >= 0.0 && r.capacity >= 0.0
    requires times != [] && Ordered(before + times) && times[|times| - 1] - times[0] <= span
    ensures Allowed(r, Through(r, None, before), times) as real <= r.capacity + Inflow(r, span)
  {
    OrderedParts(before, times);
    hide Ordered;
    ThroughOk(r, None, before);
    var b := Through(r, None, before);
    LevelBounds(r, b, times[0]);
    hide Level, Through, Inflow;
    var level := Level(r, b, times[0]);
    AllowedFrom(r, Bucket(level, times[0]), times);
    SameFromLevel(r, b, times);
    InflowGrows(r, times[|times| - 1] - times[0], span);
  }

  lemma LevelBounds(r: Rate, b: Option<Bucket>, now: real)
    requires r.refill >= 0.0 && r.capacity >= 0.0
    requires b.Some? ==> b.value.tokens >= 0.0 && b.value.last <= now
    ensures 0.0 <= Level(r, b, now) <= r.capacity
  {
    hide Inflow;
    if b.Some? { Inflows(r, now - b.value.last); } else { InflowAdds(r, 0.0, 0.0); }
  }

  // Refilling to the first call's time beforehand makes no difference.
  lemma SameFromLevel(r: Rate, b: Option<Bucket>, times: seq<real>)
    requires times != []
    ensures Allowed(r, b, times) == Allowed(r, Some(Bucket(Level(r, b, times[0]), times[0])), times)
  {
    hide Inflow;
    InflowAdds(r, 0.0, 0.0);
    var c := Some(Bucket(Level(r, b, times[0]), times[0]));
    assert Level(r, c, times[0]) == Level(r, b, times[0]);
    assert After(r, c, times[0]) == After(r, b, times[0]);
  }

  lemma {:induction false} ThroughOk(r: Rate, b: Option<Bucket>, times: seq<real>)
    requires r.refill >= 0.0 && r.capacity >= 0.0 && Ordered(times)
    requires b.Some? ==> b.value.tokens >= 0.0 && (times != [] ==> b.value.last <= times[0])
    ensures var t := Through(r, b, times);
      if times == [] then t == b else t.Some? && t.value.tokens >= 0.0 && t.value.last == times[|times| - 1]
    decreases |times|
  {
    hide Inflow, Ordered, Level;
    if times != [] {
      LevelBounds(r, b, times[0]);
      var next := After(r, b, times[0]);
      if |times| > 1 {
        OrderedTail(times);
        ThroughOk(r, Some(next), times[1..]);
      } else {
        assert Through(r, Some(next), times[1..]) == Some(next);
      }
    }
  }

  lemma OrderedParts(s: seq<real>, t: seq<real>)
    requires Ordered(s + t)
    ensures Ordered(s) && Ordered(t)
    ensures s != [] && t != [] ==> s[|s| - 1] <= t[0]
  {
    var all := s + t;
    assert forall i :: 0 <= i < |s| ==> all[i] == s[i];
    assert forall i :: 0 <= i < |t| ==> all[|s| + i] == t[i];
    forall i | 0 < i < |t| ensures t[i - 1] <= t[i] {
      assert all[|s| + i - 1] <= all[|s| + i];
    }
    forall i | 0 < i < |s| ensures s[i - 1] <= s[i] {
      assert all[i - 1] <= all[i];
    }
    if s != [] && t != [] {
      assert all[|s| - 1] <= all[|s|];
    }
  }

  // Calls that leave time for a token between them.
  predicate Spaced(r: Rate, times: seq<real>) {
    forall i :: 0 < i < |times| ==> Inflow(r, times[i] - times[i - 1]) >= 1.0
  }

  lemma {:induction false} SpacedFrom(r: Rate, b: Option<Bucket>, times: seq<real>)
    requires r.capacity >= 1.0 && Spaced(r, times)
    requires times != [] ==> Allows(r, b, times[0])
    ensures Allowed(r, b, times) == |times|
    decreases |times|
  {
    hide Inflow;
    if times != [] {
      var next := After(r, b, times[0]);
      if |times| > 1 {
        assert Inflow(r, times[1] - times[0]) >= 1.0;
        assert Level(r, Some(next), times[1]) >= 1.0;
        assert forall i :: 0 < i < |times[1..]| ==> times[1..][i] == times[i + 1] && times[1..][i - 1] == times[i];
      }
      SpacedFrom(r, Some(next), times[1..]);
    }
  }

  // They are never refused.
  lemma SpacedIsNeverRefused(r: Rate, times: seq<real>)
    requires r.capacity >= 1.0 && Spaced(r, times)
    ensures Allowed(r, None, times) == |times|
  {
    hide Inflow;
    InflowAdds(r, 0.0, 0.0);
    SpacedFrom(r, None, times);
  }

  // A gap of 1/refill leaves that time.
  lemma GapForAToken(r: Rate, times: seq<real>)
    requires r.refill > 0.0 && forall i :: 0 < i < |times| ==> times[i] - times[i - 1] >= 1.0 / r.refill
    ensures Spaced(r, times)
  {
    forall i | 0 < i < |times| ensures Inflow(r, times[i] - times[i - 1]) >= 1.0 {
      assert 1.0 / r.refill * r.refill == 1.0;
      InflowGrows(r, 1.0 / r.refill, times[i] - times[i - 1]);
    }
  }

  // ---- exactly which calls are allowed ----------------------------------------------------------------------

  lemma {:induction false} ThroughSnoc(r: Rate, b: Option<Bucket>, times: seq<real>, now: real)
    ensures Through(r, b, times + [now]) == Some(After(r, Through(r, b, times), now))
    decreases |times|
  {
    hide After;
    if times == [] {
      assert times + [now] == [now] && [now][1..] == [];
    } else {
      ThroughSnoc(r, Some(After(r, b, times[0])), times[1..], now);
      assert (times + [now])[1..] == times[1..] + [now];
    }
  }

  lemma {:induction false} AllowedSnoc(r: Rate, b: Option<Bucket>, times: seq<real>, now: real)
    ensures Allowed(r, b, times + [now])
         == Allowed(r, b, times) + (if Allows(r, Through(r, b, times), now) then 1 else 0)
    decreases |times|
  {
    hide After, Allows;
    if times == [] {
      assert times + [now] == [now] && [now][1..] == [];
    } else {
      AllowedSnoc(r, Some(After(r, b, times[0])), times[1..], now);
      assert (times + [now])[1..] == times[1..] + [now];
    }
  }

  // How many of the calls from index j on are allowed, of a session whose calls come at these times.
  function AllowedSince(r: Rate, times: seq<real>, j: nat): nat
    requires j <= |times|
  {
    Allowed(r, Through(r, None, times[..j]), times[j..])
  }

  // A call at `now` leaves the calls since index j within the capacity and what is refilled since.
  predicate FitsSince(r: Rate, times: seq<real>, now: real, j: nat)
    requires j <= |times|
  {
    AllowedSince(r, times, j) as real + 1.0 <= r.capacity + Inflow(r, now - (times + [now])[j])
  }

  lemma AllowedSinceSnoc(r: Rate, times: seq<real>, now: real, j: nat)
    requires j <= |times|
    ensures AllowedSince(r, times + [now], j)
         == AllowedSince(r, times, j) + (if Allows(r, Through(r, None, times), now) then 1 else 0)
  {
    assert (times + [now])[..j] == times[..j] && (times + [now])[j..] == times[j..] + [now];
    hide After, Allows;
    AllowedSnoc(r, Through(r, None, times[..j]), times[j..], now);
    ThroughParts(r, None, times[..j], times[j..]);
    assert times[..j] + times[j..] == times;
  }

  lemma {:induction false} ThroughParts(r: Rate, b: Option<Bucket>, s: seq<real>, t: seq<real>)
    ensures Through(r, b, s + t) == Through(r, Through(r, b, s), t)
    decreases |s|
  {
    hide After;
    if s == [] {
      assert s + t == t;
    } else {
      ThroughParts(r, Some(After(r, b, s[0])), s[1..], t);
      assert (s + t)[1..] == s[1..] + t;
    }
  }

  // Since the call that last found the bucket full, its level is the capacity, what was refilled since, less
  // the calls allowed.
  predicate FullAt(r: Rate, times: seq<real>, now: real, j: nat) {
    && j <= |times|
    && Level(r, Through(r, None, times), now)
       == r.capacity + Inflow(r, now - (times + [now])[j]) - AllowedSince(r, times, j) as real
  }

  lemma {:induction false} LastFull(r: Rate, times: seq<real>, now: real) returns (j: nat)
    ensures FullAt(r, times, now, j)
    decreases |times|
  {
    InflowAdds(r, 0.0, 0.0);
    var n := |times|;
    assert (times + [now])[n] == now && times[..n] == times && times[n..] == [];
    if n == 0 {
      j := 0;
    } else {
      var init, t := times[..n - 1], times[n - 1];
      assert times == init + [t];
      ThroughSnoc(r, None, init, t);
      j := LastFull(r, init, t);
      AllowedSinceSnoc(r, init, t, j);
      assert (times + [now])[j] == times[j];
      InflowAdds(r, t - times[j], now - t);
      assert (t - times[j]) + (now - t) == now - times[j];
      hide Inflow;
      if Level(r, Through(r, None, times), now) == r.capacity {
        assert (times + [now])[n] == now && now - now == 0.0;
        j := n;
      }
    }
  }

  lemma AllowedFits(r: Rate, times: seq<real>, now: real, j: nat)
    requires r.refill >= 0.0 && r.capacity >= 0.0 && Ordered(times + [now]) && j <= |times|
    requires Allows(r, Through(r, None, times), now)
    ensures FitsSince(r, times, now, j)
  {
    hide Allows, Through, Inflow, Ordered, Allowed;
    var all := times + [now];
    assert all[..j] + all[j..] == all;
    AllowedSinceSnoc(r, times, now, j);
    BurstIsBounded(r, all[..j], all[j..], now - all[j]);
  }

  lemma RefusedFitsNot(r: Rate, times: seq<real>, now: real, j: nat)
    requires FullAt(r, times, now, j) && !Allows(r, Through(r, None, times), now)
    ensures !FitsSince(r, times, now, j)
  {
    hide Through, Inflow, AllowedSince, Level;
  }

  // A call is allowed exactly when, from whichever earlier call one counts, the calls allowed since, with it,
  // are no more than the capacity and what is refilled since: the bucket is that sliding window.
  lemma AllowedExactlyWhen(r: Rate, times: seq<real>, now: real)
    requires r.refill >= 0.0 && r.capacity >= 0.0 && Ordered(times + [now])
    ensures Allows(r, Through(r, None, times), now)
       <==> forall j: nat :: j <= |times| ==> FitsSince(r, times, now, j)
  {
    hide Through, Inflow, AllowedSince, Level, Ordered, Allows, FitsSince;
    if Allows(r, Through(r, None, times), now) {
      forall j: nat | j <= |times| ensures FitsSince(r, times, now, j) {
        AllowedFits(r, times, now, j);
      }
    } else {
      var j := LastFull(r, times, now);
      RefusedFitsNot(r, times, now, j);
    }
  }

  class HookRateLimiter {
    const rate: Rate
    var buckets: map<Sid, Bucket>

    constructor (capacity: real, refill: real)
      ensures rate == Rate(capacity, refill) && buckets == map[]
    {
      rate := Rate(capacity, refill);
      buckets := map[];
    }

    // Only the session's own bucket is touched.
    method Allow(sid: Sid, now: real) returns (ok: bool)
      modifies this
      ensures ok <==> Allows(rate, Lookup(old(buckets), sid), now)
      ensures buckets == old(buckets)[sid := After(rate, Lookup(old(buckets), sid), now)]
    {
      hide Inflow;
      var bucket := if sid in buckets then buckets[sid] else Bucket(rate.capacity, now);
      var tokens := bucket.tokens + Inflow(rate, now - bucket.last);
      if rate.capacity <= tokens {
        tokens := rate.capacity;
      }
      if tokens < 1.0 {
        buckets := buckets[sid := Bucket(tokens, now)];
        return false;
      }
      buckets := buckets[sid := Bucket(tokens - 1.0, now)];
      return true;
    }
  }
}
