/** Token buckets per key, refilled over time; full idle buckets are forgotten. Times are nanoseconds, tokens reals. */
module Limiter {
  import opened Options

  datatype Rate = Rate(perHour: real, burst: real)
  datatype Bucket = Bucket(tokens: real, at: int)
  datatype Answer = Allowed | Refused(wait: int)

  /** `sweep` is when the map was last swept; never, at first. */
  datatype Limits = Limits(rate: Rate, buckets: map<string, Bucket>, sweep: Option<int>)

  const SECOND := 1_000_000_000
  const SWEEP_EVERY := 600 * SECOND

  function Seconds(d: int): real { d as real / 1_000_000_000.0 }

  function PerSec(r: Rate): real { r.perHour / 3600.0 }

  predicate Limiting(r: Rate) { r.perHour > 0.0 && r.burst > 0.0 }

  function Min(x: real, y: real): real { if x <= y then x else y }

  /** What a time refills. */
  function Gain(r: Rate, d: int): real { Seconds(d) * PerSec(r) }

  function Refill(r: Rate, b: Bucket, now: int): real { b.tokens + Gain(r, now - b.at) }

  // ---- one call ----

  function Swept(l: Limits, now: int): Limits {
    if l.sweep.None? || now - l.sweep.value > SWEEP_EVERY then
      l.(sweep := Some(now), buckets := map k | k in l.buckets
        && Refill(l.rate, l.buckets[k], now) < l.rate.burst :: l.buckets[k])
    else l
  }

  /** What a key's bucket holds at a time: a new one is full. */
  function Level(l: Limits, key: string, now: int): real {
    if key in l.buckets then Min(l.rate.burst, Refill(l.rate, l.buckets[key], now)) else l.rate.burst
  }

  /** How long until a token is there, in whole nanoseconds. */
  function Wait(r: Rate, tokens: real): int
    requires Limiting(r)
  {
    ((1.0 - tokens) / PerSec(r) * 1_000_000_000.0).Floor
  }

  function Take(l: Limits, key: string, now: int): (Limits, Answer)
    requires Limiting(l.rate)
  {
    var tokens := Level(l, key, now);
    if tokens >= 1.0 then (l.(buckets := l.buckets[key := Bucket(tokens - 1.0, now)]), Allowed)
    else (l.(buckets := l.buckets[key := Bucket(tokens, now)]), Refused(Wait(l.rate, tokens)))
  }

  function Allow(l: Limits, key: string, now: int): (Limits, Answer) {
    if !Limiting(l.rate) then (l, Allowed) else Take(Swept(l, now), key, now)
  }

  /** The same limiter, forgetting nothing. */
  function AllowPlain(l: Limits, key: string, now: int): (Limits, Answer) {
    if !Limiting(l.rate) then (l, Allowed) else Take(l, key, now)
  }

  // ---- what a key may take ----

  predicate Valid(l: Limits, now: int) {
    Limiting(l.rate) && forall k :: k in l.buckets ==>
      l.buckets[k].at <= now && 0.0 <= l.buckets[k].tokens <= l.rate.burst
  }

  function Later(r: Rate, level: real, d: int): real { Min(r.burst, level + Gain(r, d)) }

  lemma GainAdds(r: Rate, x: int, y: int)
    requires Limiting(r)
    ensures Gain(r, x + y) == Gain(r, x) + Gain(r, y) && Gain(r, 0) == 0.0
    ensures x >= 0 ==> Gain(r, x) >= 0.0
  {
    var p := PerSec(r);
    assert Seconds(x + y) == Seconds(x) + Seconds(y);
    assert (Seconds(x) + Seconds(y)) * p == Seconds(x) * p + Seconds(y) * p;
    if x >= 0 { Times(Seconds(x), p); }
  }

  lemma Times(x: real, y: real)
    requires x >= 0.0 && y >= 0.0
    ensures x * y >= 0.0
  {
  }

  lemma LevelLater(l: Limits, key: string, now: int, later: int)
    requires Valid(l, now) && now <= later
    ensures Level(l, key, later) == Later(l.rate, Level(l, key, now), later - now)
    ensures 0.0 <= Level(l, key, now) <= l.rate.burst && Level(l, key, now) <= Level(l, key, later)
  {
    GainAdds(l.rate, later - now, 0);
    if key in l.buckets {
      var b := l.buckets[key];
      GainAdds(l.rate, now - b.at, later - now);
      assert now - b.at + (later - now) == later - b.at;
    }
  }

  /** A swept bucket is full by then, so it is as good as a new one, now and later. */
  lemma SweepUnseen(l: Limits, key: string, now: int, later: int)
    requires Valid(l, now) && now <= later
    ensures Valid(Swept(l, now), now) && Swept(l, now).rate == l.rate
    ensures Level(Swept(l, now), key, later) == Level(l, key, later)
  {
    LevelLater(l, key, now, later);
    GainAdds(l.rate, later - now, 0);
  }

  /** Taking costs a token of the key asked for, when there is one, and nothing else. */
  lemma TakeCosts(l: Limits, key: string, now: int, other: string, later: int)
    requires Valid(l, now) && now <= later
    ensures var (l', answer) := Take(l, key, now);
      && Valid(l', now) && l'.rate == l.rate
      && (answer.Allowed? <==> Level(l, key, now) >= 1.0)
      && (other != key ==> Level(l', other, later) == Level(l, other, later))
      && Level(l', key, now) == Level(l, key, now) - (if answer.Allowed? then 1.0 else 0.0)
  {
    LevelLater(l, key, now, now);
    GainAdds(l.rate, 0, 0);
    var (l', answer) := Take(l, key, now);
    forall k | k in l'.buckets ensures l'.buckets[k].at <= now && 0.0 <= l'.buckets[k].tokens <= l'.rate.burst {
      if k != key { assert k in l.buckets; }
    }
  }

  // ---- forgetting is unobservable ----

  datatype Call = Call(key: string, now: int)

  predicate InOrder(calls: seq<Call>, from: int) {
    forall i :: 0 <= i < |calls| ==> from <= calls[i].now && (i > 0 ==> calls[i - 1].now <= calls[i].now)
  }

  function Calls(l: Limits, calls: seq<Call>): (Limits, seq<Answer>) {
    if calls == [] then (l, [])
    else
      var (l1, answers) := Calls(l, calls[..|calls| - 1]);
      var (l2, answer) := Allow(l1, calls[|calls| - 1].key, calls[|calls| - 1].now);
      (l2, answers + [answer])
  }

  function CallsPlain(l: Limits, calls: seq<Call>): (Limits, seq<Answer>) {
    if calls == [] then (l, [])
    else
      var (l1, answers) := CallsPlain(l, calls[..|calls| - 1]);
      var (l2, answer) := AllowPlain(l1, calls[|calls| - 1].key, calls[|calls| - 1].now);
      (l2, answers + [answer])
  }

  function LastAt(calls: seq<Call>, from: int): int { if calls == [] then from else calls[|calls| - 1].now }

  /** The two hold the same for every key, at every time to come. */
  ghost predicate Alike(l: Limits, m: Limits, now: int) {
    l.rate == m.rate && Valid(l, now) && Valid(m, now) && forall k, t :: now <= t ==> Level(l, k, t) == Level(m, k, t)
  }

  lemma AlikeStep(l: Limits, m: Limits, key: string, now: int)
    requires Alike(l, m, now)
    ensures Allow(l, key, now).1 == AllowPlain(m, key, now).1
    ensures Alike(Allow(l, key, now).0, AllowPlain(m, key, now).0, now)
  {
    var s := Swept(l, now);
    SweepUnseen(l, key, now, now);
    var l', m' := Take(s, key, now).0, Take(m, key, now).0;
    TakeCosts(s, key, now, key, now);
    TakeCosts(m, key, now, key, now);
    forall k: string, t: int | now <= t ensures Level(l', k, t) == Level(m', k, t) {
      SweepUnseen(l, k, now, t);
      assert Level(l, k, t) == Level(m, k, t);
      TakeCosts(s, key, now, k, t);
      TakeCosts(m, key, now, k, t);
      if k == key {
        assert Level(l, key, now) == Level(m, key, now);
        LevelLater(l', key, now, t);
        LevelLater(m', key, now, t);
      }
    }
  }

  lemma AlikeLater(l: Limits, m: Limits, now: int, later: int)
    requires Alike(l, m, now) && now <= later
    ensures Alike(l, m, later)
  {
  }

  /** The limiter answers every sequence of calls as one that never forgets a bucket. */
  lemma {:induction false} ForgettingIsUnseen(l: Limits, m: Limits, calls: seq<Call>, from: int)
    requires Alike(l, m, from) && InOrder(calls, from)
    ensures Calls(l, calls).1 == CallsPlain(m, calls).1
    ensures Alike(Calls(l, calls).0, CallsPlain(m, calls).0, LastAt(calls, from)) && from <= LastAt(calls, from)
  {
    if calls != [] {
      var n := |calls| - 1;
      var front, c := calls[..n], calls[n];
      ForgettingIsUnseen(l, m, front, from);
      AlikeLater(Calls(l, front).0, CallsPlain(m, front).0, LastAt(front, from), c.now);
      AlikeStep(Calls(l, front).0, CallsPlain(m, front).0, c.key, c.now);
    }
  }

  lemma FromNew(r: Rate, calls: seq<Call>, from: int)
    requires InOrder(calls, from)
    ensures Calls(Limits(r, map[], None), calls).1 == CallsPlain(Limits(r, map[], None), calls).1
  {
    if Limiting(r) {
      ForgettingIsUnseen(Limits(r, map[], None), Limits(r, map[], None), calls, from);
    } else {
      UnlimitedAllows(Limits(r, map[], None), calls);
    }
  }

  lemma {:induction false} UnlimitedAllows(l: Limits, calls: seq<Call>)
    requires !Limiting(l.rate)
    ensures Calls(l, calls) == CallsPlain(l, calls) && Calls(l, calls).0 == l && |Calls(l, calls).1| == |calls|
    ensures forall i :: 0 <= i < |calls| ==> Calls(l, calls).1[i].Allowed?
  {
    if calls != [] { UnlimitedAllows(l, calls[..|calls| - 1]); }
  }

  // ---- the bound ----

  /** How many calls for a key were let through. */
  function Passed(calls: seq<Call>, answers: seq<Answer>, key: string): nat
    requires |calls| == |answers|
  {
    if calls == [] then 0
    else
      var n := |calls| - 1;
      Passed(calls[..n], answers[..n], key) + if calls[n].key == key && answers[n].Allowed? then 1 else 0
  }

  lemma {:induction false} AnswersAll(l: Limits, calls: seq<Call>)
    ensures |Calls(l, calls).1| == |calls|
  {
    if calls != [] { AnswersAll(l, calls[..|calls| - 1]); }
  }

  lemma AllowCosts(l: Limits, call: Call, key: string)
    requires Valid(l, call.now)
    ensures var (l', answer) := Allow(l, call.key, call.now);
      && Valid(l', call.now) && l'.rate == l.rate
      && Level(l', key, call.now) == Level(l, key, call.now) - (if call.key == key && answer.Allowed? then 1.0 else 0.0)
  {
    var s := Swept(l, call.now);
    SweepUnseen(l, key, call.now, call.now);
    TakeCosts(s, call.key, call.now, key, call.now);
  }

  /** What passed, and what is left, was there or was refilled. */
  lemma {:induction false} PassedIsPaidFor(l: Limits, calls: seq<Call>, from: int, key: string)
    requires Valid(l, from) && InOrder(calls, from)
    ensures |Calls(l, calls).1| == |calls|
    ensures var (l', answers), t := Calls(l, calls), LastAt(calls, from);
      && Valid(l', t) && l'.rate == l.rate && from <= t
      && Passed(calls, answers, key) as real + Level(l', key, t) <= Level(l, key, from) + Gain(l.rate, t - from)
  {
    hide Allow, Level, Gain, Valid, Limiting, Calls, Passed;
    ValidLimits(l, from);
    if calls != [] {
      var n := |calls| - 1;
      var front, c := calls[..n], calls[n];
      PassedIsPaidFor(l, front, from, key);
      var l1, t1 := Calls(l, front).0, LastAt(front, from);
      OneMore(l1, t1, c, key);
      GainAdds(l.rate, t1 - from, c.now - t1);
      assert t1 - from + (c.now - t1) == c.now - from;
      PassedMore(l, calls, key);
    } else {
      NothingPassed(l, key);
      GainAdds(l.rate, 0, 0);
    }
  }

  lemma NothingPassed(l: Limits, key: string)
    ensures Calls(l, []) == (l, []) && Passed([], [], key) == 0
  {
  }

  lemma PassedMore(l: Limits, calls: seq<Call>, key: string)
    requires calls != []
    ensures var front, c := calls[..|calls| - 1], calls[|calls| - 1];
      var before, (l', answer) := Calls(l, front), Allow(Calls(l, front).0, c.key, c.now);
      && |before.1| == |front| && |Calls(l, calls).1| == |calls| && Calls(l, calls).0 == l'
      && Passed(calls, Calls(l, calls).1, key) ==
           Passed(front, before.1, key) + if c.key == key && answer.Allowed? then 1 else 0
  {
    hide Allow;
    var n := |calls| - 1;
    AnswersAll(l, calls);
    AnswersAll(l, calls[..n]);
    assert Calls(l, calls).1[..n] == Calls(l, calls[..n]).1;
  }

  lemma ValidLimits(l: Limits, now: int)
    requires Valid(l, now)
    ensures Limiting(l.rate)
  {
  }

  lemma OneMore(l: Limits, t: int, call: Call, key: string)
    requires Valid(l, t) && t <= call.now
    ensures var (l', answer) := Allow(l, call.key, call.now);
      && Valid(l', call.now) && l'.rate == l.rate
      && Level(l', key, call.now) + (if call.key == key && answer.Allowed? then 1.0 else 0.0) <= Level(l, key, t)
           + Gain(l.rate, call.now - t)
  {
    ValidLater(l, t, call.now);
    LevelLater(l, key, t, call.now);
    AllowCosts(l, call, key);
  }

  lemma WindowGain(l: Limits, calls: seq<Call>, from: int, until: int, key: string)
    requires Valid(l, from) && InOrder(calls, from) && from <= until
    requires forall i :: 0 <= i < |calls| ==> calls[i].now <= until
    ensures |Calls(l, calls).1| == |calls|
    ensures Passed(calls, Calls(l, calls).1, key) as real <= l.rate.burst + Gain(l.rate, until - from)
  {
    PassedIsPaidFor(l, calls, from, key);
    hide Gain, Calls, Passed, Level;
    var l', t := Calls(l, calls).0, LastAt(calls, from);
    LevelLater(l', key, t, t);
    LevelLater(l, key, from, from);
    GainAdds(l.rate, until - t, t - from);
    assert until - t + (t - from) == until - from;
  }

  /** A rate is per hour, a time in nanoseconds. */
  lemma PerHour(r: Rate, d: int)
    ensures Gain(r, d) == r.perHour * d as real / 3_600_000_000_000.0
  {
    assert Gain(r, d) == d as real / 1_000_000_000.0 * (r.perHour / 3600.0);
  }

  /** In any window, at most Burst + its length times the rate pass for a key, from any state the limiter gets into. */
  lemma WindowBound(l: Limits, calls: seq<Call>, from: int, until: int, key: string)
    requires Valid(l, from) && InOrder(calls, from) && from <= until
    requires forall i :: 0 <= i < |calls| ==> calls[i].now <= until
    ensures |Calls(l, calls).1| == |calls|
    ensures Passed(calls, Calls(l, calls).1, key) as real
      <= l.rate.burst + l.rate.perHour * (until - from) as real / 3_600_000_000_000.0
  {
    hide *;
    WindowGain(l, calls, from, until, key);
    PerHour(l.rate, until - from);
  }

  lemma RefillsByGain(l: Limits, key: string, now: int, d: nat)
    requires Valid(l, now)
    ensures var (l1, first) := Allow(l, key, now);
      && key in l1.buckets && (first.Allowed? || l1.buckets[key].tokens < 1.0)
      && (key !in l.buckets ==>
           if l.rate.burst >= 1.0 then first.Allowed? && l1.buckets[key].tokens == l.rate.burst - 1.0
           else first.Refused? && l1.buckets[key].tokens == l.rate.burst)
      && (Allow(l1, key, now + d).1.Allowed? <==>
           l.rate.burst >= 1.0 && l1.buckets[key].tokens + Gain(l.rate, d) >= 1.0)
  {
    hide Gain;
    SweepUnseen(l, key, now, now);
    TakeCosts(Swept(l, now), key, now, key, now);
    var l1 := Allow(l, key, now).0;
    ValidLater(l1, now, now + d);
    SweepUnseen(l1, key, now + d, now + d);
    assert now + d - now == d;
  }

  /** And no less than that comes in: a caller new to the limiter finds the whole burst, less its call, and one that
      comes back after a time is let in exactly when what it left and the time's share of the hourly rate make a token,
      unless the burst is smaller than one. */
  lemma RefillsAtItsRate(l: Limits, key: string, now: int, d: nat)
    requires Valid(l, now)
    ensures var (l1, first) := Allow(l, key, now);
      && key in l1.buckets && (first.Allowed? || l1.buckets[key].tokens < 1.0)
      && (key !in l.buckets ==>
           if l.rate.burst >= 1.0 then first.Allowed? && l1.buckets[key].tokens == l.rate.burst - 1.0
           else first.Refused? && l1.buckets[key].tokens == l.rate.burst)
      && (Allow(l1, key, now + d).1.Allowed? <==>
           && l.rate.burst >= 1.0
           && l1.buckets[key].tokens + l.rate.perHour * d as real / 3_600_000_000_000.0 >= 1.0)
  {
    hide Gain, Allow;
    RefillsByGain(l, key, now, d);
    PerHour(l.rate, d);
  }

  /** What a sweep leaves was used within the time a bucket takes to fill. */
  lemma SweepBoundsTheMap(l: Limits, now: int, key: string)
    requires Valid(l, now) && (l.sweep.None? || now - l.sweep.value > 600_000_000_000)
      && key in Swept(l, now).buckets
    ensures key in l.buckets && Gain(l.rate, now - l.buckets[key].at) < l.rate.burst
  {
  }

  // ---- Retry-After ----

  /** The seconds a refusal names; division truncates. */
  function RetryAfter(wait: int): int { (if wait >= 0 then wait / SECOND else -(-wait / SECOND)) + 1 }

  lemma WaitIsEnough(r: Rate, tokens: real, d: int)
    requires Limiting(r) && tokens < 1.0 && d > Wait(r, tokens)
    ensures Wait(r, tokens) >= 0 && Gain(r, d) >= 1.0 - tokens
  {
    var p := PerSec(r);
    var w := (1.0 - tokens) / p * 1_000_000_000.0;
    Divides(1.0 - tokens, p);
    assert d as real >= w;
    assert Seconds(d) >= (1.0 - tokens) / p;
    TimesMonotone(Seconds(d), (1.0 - tokens) / p, p);
  }

  lemma Divides(x: real, p: real)
    requires x > 0.0 && p > 0.0
    ensures x / p > 0.0 && x / p * p == x
  {
  }

  lemma TimesMonotone(x: real, y: real, p: real)
    requires x >= y && p > 0.0
    ensures x * p >= y * p
  {
    Times(x - y, p);
    assert (x - y) * p == x * p - y * p;
  }

  /** Calls of other keys leave a key's bucket as it is, whenever it is looked at later. */
  lemma {:induction false} OthersLeaveLevel(l: Limits, calls: seq<Call>, from: int, key: string, later: int)
    requires Valid(l, from) && InOrder(calls, from) && LastAt(calls, from) <= later
    requires forall i :: 0 <= i < |calls| ==> calls[i].key != key
    ensures var l' := Calls(l, calls).0;
      && Valid(l', LastAt(calls, from)) && from <= LastAt(calls, from) && l'.rate == l.rate
      && Level(l', key, later) == Level(l, key, later)
  {
    hide Level, Gain, Valid;
    if calls != [] {
      var front, c := calls[..|calls| - 1], calls[|calls| - 1];
      OthersLeaveLevel(l, front, from, key, later);
      var l1 := Calls(l, front).0;
      ValidLater(l1, LastAt(front, from), c.now);
      ValidLimits(l1, c.now);
      SweepUnseen(l1, key, c.now, later);
      TakeCosts(Swept(l1, c.now), c.key, c.now, key, later);
    }
  }

  /** A refused caller that comes back after the seconds it was told, alone on its key, is let in exactly when a bucket
      holds a token, whatever other callers did meanwhile. */
  lemma RetryAfterSuffices(l: Limits, key: string, now: int, between: seq<Call>, later: int)
    requires Valid(l, now) && Allow(l, key, now).1.Refused?
    requires InOrder(between, now) && LastAt(between, now) <= later
    requires forall i :: 0 <= i < |between| ==> between[i].key != key
    ensures Allow(l, key, now).1.wait >= 0
    ensures later >= now + RetryAfter(Allow(l, key, now).1.wait) * SECOND ==>
      (Allow(Calls(Allow(l, key, now).0, between).0, key, later).1.Allowed? <==> l.rate.burst >= 1.0)
  {
    hide Allow, Level, Gain, Wait, Valid, Calls;
    AllowAnswers(l, key, now);
    AllowCosts(l, Call(key, now), key);
    ValidLimits(l, now);
    var (l1, answer) := Allow(l, key, now);
    var tokens := Level(l, key, now);
    WaitIsEnough(l.rate, tokens, Wait(l.rate, tokens) + 1);
    if later >= now + RetryAfter(answer.wait) * SECOND {
      assert RetryAfter(answer.wait) * SECOND > answer.wait;
      WaitIsEnough(l.rate, tokens, later - now);
      LevelLater(l1, key, now, later);
      OthersLeaveLevel(l1, between, now, key, later);
      ValidLater(Calls(l1, between).0, LastAt(between, now), later);
      AllowAnswers(Calls(l1, between).0, key, later);
    }
  }

  lemma WaitIsLeast(r: Rate, tokens: real, d: nat)
    requires Limiting(r) && tokens < 1.0 && d < Wait(r, tokens)
    ensures Gain(r, d) < 1.0 - tokens
  {
    var p := PerSec(r);
    Divides(1.0 - tokens, p);
    assert d as real < (1.0 - tokens) / p * 1_000_000_000.0;
    assert Seconds(d) < (1.0 - tokens) / p;
    TimesApart((1.0 - tokens) / p, Seconds(d), p);
  }

  lemma TimesApart(x: real, y: real, p: real)
    requires x > y && p > 0.0
    ensures x * p > y * p
  {
    Positive(x - y, p);
    assert (x - y) * p == x * p - y * p;
  }

  lemma Positive(x: real, y: real)
    requires x > 0.0 && y > 0.0
    ensures x * y > 0.0
  {
  }

  /** And nobody is told to wait a second too long: until one second before the named ones are over it is refused. */
  lemma RetryAfterIsTight(l: Limits, key: string, now: int, later: int)
    requires Valid(l, now) && Allow(l, key, now).1.Refused?
    requires now <= later < now + (RetryAfter(Allow(l, key, now).1.wait) - 1) * 1_000_000_000
    ensures Allow(Allow(l, key, now).0, key, later).1.Refused?
  {
    hide Allow, Level, Gain, Wait, Valid;
    AllowAnswers(l, key, now);
    AllowCosts(l, Call(key, now), key);
    ValidLimits(l, now);
    var (l1, answer) := Allow(l, key, now);
    var tokens := Level(l, key, now);
    WaitIsEnough(l.rate, tokens, Wait(l.rate, tokens) + 1);
    assert later - now < answer.wait;
    WaitIsLeast(l.rate, tokens, later - now);
    LevelLater(l1, key, now, later);
    ValidLater(l1, now, later);
    AllowAnswers(l1, key, later);
  }

  lemma AllowAnswers(l: Limits, key: string, now: int)
    requires Valid(l, now)
    ensures Allow(l, key, now).1 ==
      if Level(l, key, now) >= 1.0 then Allowed else Refused(Wait(l.rate, Level(l, key, now)))
  {
    SweepUnseen(l, key, now, now);
  }

  lemma ValidLater(l: Limits, now: int, later: int)
    requires Valid(l, now) && now <= later
    ensures Valid(l, later)
  {
  }

  /** With less than a token of burst nobody is ever let in. */
  lemma SmallBurstRefuses(l: Limits, key: string, now: int)
    requires Valid(l, now) && l.rate.burst < 1.0
    ensures Allow(l, key, now).1.Refused?
  {
    SweepUnseen(l, key, now, now);
    LevelLater(Swept(l, now), key, now, now);
  }

  // ---- the limiter ----

  class Limiter {
    const rate: Rate
    var buckets: map<string, Bucket>
    var sweep: Option<int>

    function State(): Limits
      reads this
    {
      Limits(rate, buckets, sweep)
    }

    constructor (r: Rate)
      ensures State() == Limits(r, map[], None)
    {
      rate, buckets, sweep := r, map[], None;
    }

    /** Forgets the full buckets, in any order. */
    method SweepFull(now: int)
      modifies this
      ensures State() == Swept(old(State()), now)
    {
      if sweep.Some? && now - sweep.value <= SWEEP_EVERY { return; }
      sweep := Some(now);
      var keys := buckets.Keys;
      ghost var was := buckets;
      while keys != {}
        invariant keys <= was.Keys && sweep == Some(now)
        invariant forall k :: k in buckets <==> k in was && (k in keys || Refill(rate, was[k], now) < rate.burst)
        invariant forall k :: k in buckets ==> buckets[k] == was[k]
        decreases |keys|
      {
        var k :| k in keys;
        keys := keys - {k};
        if k in buckets && Refill(rate, buckets[k], now) >= rate.burst { buckets := buckets - {k}; }
      }
    }

    method Ask(key: string, now: int) returns (answer: Answer)
      modifies this
      ensures (State(), answer) == Allow(old(State()), key, now)
    {
      if rate.perHour <= 0.0 || rate.burst <= 0.0 { return Allowed; }
      SweepFull(now);
      GainAdds(rate, 0, 0);
      ghost var swept := State();
      if key !in buckets { buckets := buckets[key := Bucket(rate.burst, now)]; }
      var tokens := Min(rate.burst, Refill(rate, buckets[key], now));
      assert tokens == Level(swept, key, now);
      if tokens >= 1.0 {
        buckets := buckets[key := Bucket(tokens - 1.0, now)];
        assert buckets == swept.buckets[key := Bucket(tokens - 1.0, now)];
        return Allowed;
      }
      buckets := buckets[key := Bucket(tokens, now)];
      assert buckets == swept.buckets[key := Bucket(tokens, now)];
      return Refused(Wait(rate, tokens));
    }
  }
}
