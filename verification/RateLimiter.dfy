/** The sliding-window limiter: one queue of call times per (model, key). A run is any interleaving of
    the callers' critical sections under a clock that does not go back. */
module RateLimiter {
  import opened Ids

  /** At most `maxCalls` calls in any `window` seconds; every limit in the table allows at least one. */
  datatype Limit = Limit(maxCalls: nat, window: real) {
    predicate Usable() { maxCalls >= 1 && window > 0.0 }
  }

  const MIN_SLEEP: real := 0.05

  type Limits = map<string, Limit>
  type Buckets = map<string, seq<real>>

  datatype Call = Call(model: string, keyIndex: nat, now: real) {
    function Bucket(): string { BucketName(model, keyIndex) }
  }

  function BucketAt(buckets: Buckets, name: string): seq<real> {
    if name in buckets then buckets[name] else []
  }

  predicate Suffix(r: seq<real>, times: seq<real>) {
    |r| <= |times| && forall i :: 0 <= i < |r| ==> r[i] == times[|times| - |r| + i]
  }

  /** The queue after every entry that has left the window was popped from its front. */
  function Pruned(times: seq<real>, now: real, window: real): (r: seq<real>)
    ensures |r| <= |times| && Suffix(r, times)
    ensures forall i :: 0 <= i < |times| - |r| ==> now - times[i] >= window
    ensures r != [] ==> now - r[0] < window
  {
    if times != [] && now - times[0] >= window then Pruned(times[1..], now, window) else times
  }

  predicate Admits(times: seq<real>, limit: Limit, now: real) {
    |Pruned(times, now, limit.window)| < limit.maxCalls
  }

  /** One critical section on one queue. */
  function Tried(times: seq<real>, limit: Limit, now: real): seq<real> {
    Pruned(times, now, limit.window) + if Admits(times, limit, now) then [now] else []
  }

  predicate Throttled(limits: Limits, c: Call) {
    c.model in limits
  }

  function Apply(limits: Limits, buckets: Buckets, c: Call): Buckets {
    if Throttled(limits, c) then buckets[c.Bucket() := Tried(BucketAt(buckets, c.Bucket()), limits[c.model], c.now)]
    else buckets
  }

  function Run(limits: Limits, calls: seq<Call>): Buckets {
    if calls == [] then map[] else Apply(limits, Run(limits, calls[..|calls| - 1]), calls[|calls| - 1])
  }

  predicate For(c: Call, model: string, keyIndex: nat) {
    c.model == model && c.keyIndex == keyIndex
  }

  /** The times at which calls of one (model, key) pair were let through. */
  function Admissions(limits: Limits, calls: seq<Call>, model: string, keyIndex: nat): seq<real>
    requires model in limits
  {
    if calls == [] then []
    else
      var before, c := calls[..|calls| - 1], calls[|calls| - 1];
      Admissions(limits, before, model, keyIndex)
      + if For(c, model, keyIndex) && Admits(BucketAt(Run(limits, before), c.Bucket()), limits[model], c.now) then [c.now] else []
  }

  predicate Ascending(times: seq<real>) {
    forall i, j :: 0 <= i < j < |times| ==> times[i] <= times[j]
  }

  predicate ClockOnlyAdvances(calls: seq<Call>) {
    forall i, j :: 0 <= i < j < |calls| ==> calls[i].now <= calls[j].now
  }

  /** Any `maxCalls + 1` consecutive admissions span at least a window. */
  predicate Spaced(times: seq<real>, limit: Limit) {
    forall i :: 0 <= i < |times| - limit.maxCalls ==> times[i + limit.maxCalls] - times[i] >= limit.window
  }

  /** The queue holds every admission that can still count: the others left the window by `now`. */
  ghost predicate Remembers(times: seq<real>, admitted: seq<real>, limit: Limit, now: real) {
    && Suffix(times, admitted) && |times| <= limit.maxCalls
    && forall i :: 0 <= i < |admitted| - |times| ==> now - admitted[i] >= limit.window
  }

  ghost predicate BucketInv(times: seq<real>, admitted: seq<real>, limit: Limit, now: real) {
    && Ascending(admitted) && Spaced(admitted, limit) && Remembers(times, admitted, limit, now)
    && forall i :: 0 <= i < |admitted| ==> admitted[i] <= now
  }

  lemma PruningKeepsInv(times: seq<real>, admitted: seq<real>, limit: Limit, before: real, now: real)
    requires BucketInv(times, admitted, limit, before) && before <= now
    ensures BucketInv(Pruned(times, now, limit.window), admitted, limit, now)
  {
    var pruned := Pruned(times, now, limit.window);
    hide Spaced, Ascending, Pruned;
    var dropped := |times| - |pruned|;
    forall i | 0 <= i < |admitted| - |pruned| ensures now - admitted[i] >= limit.window {
      if i >= |admitted| - |times| {
        assert admitted[i] == times[i - (|admitted| - |times|)];
      }
    }
    forall i | 0 <= i < |pruned| ensures pruned[i] == admitted[|admitted| - |pruned| + i] {
      assert pruned[i] == times[dropped + i];
    }
  }

  lemma AdmittingKeepsInv(times: seq<real>, admitted: seq<real>, limit: Limit, now: real)
    requires BucketInv(times, admitted, limit, now) && |times| < limit.maxCalls
    ensures BucketInv(times + [now], admitted + [now], limit, now)
  {
    var longer := admitted + [now];
    assert forall i :: 0 <= i < |admitted| ==> longer[i] == admitted[i];
    forall i | 0 <= i < |longer| - limit.maxCalls ensures longer[i + limit.maxCalls] - longer[i] >= limit.window {
      if i + limit.maxCalls < |admitted| {
        assert admitted[i + limit.maxCalls] - admitted[i] >= limit.window;
      }
    }
  }

  lemma TriedKeepsInv(times: seq<real>, admitted: seq<real>, limit: Limit, before: real, now: real)
    requires BucketInv(times, admitted, limit, before) && before <= now
    ensures BucketInv(Tried(times, limit, now), admitted + (if Admits(times, limit, now) then [now] else []), limit, now)
  {
    hide BucketInv, Pruned;
    PruningKeepsInv(times, admitted, limit, before, now);
    if Admits(times, limit, now) {
      AdmittingKeepsInv(Pruned(times, now, limit.window), admitted, limit, now);
    } else {
      assert admitted + [] == admitted;
      assert Pruned(times, now, limit.window) + [] == Pruned(times, now, limit.window);
    }
  }

  lemma RunsOneBucket(limits: Limits, buckets: Buckets, c: Call, model: string, keyIndex: nat)
    requires model in limits
    ensures var name := BucketName(model, keyIndex);
      BucketAt(Apply(limits, buckets, c), name) ==
        if For(c, model, keyIndex) then Tried(BucketAt(buckets, name), limits[model], c.now) else BucketAt(buckets, name)
  {
    hide BucketName, Tried;
    if c.Bucket() == BucketName(model, keyIndex) {
      BucketNameInjective(c.model, c.keyIndex, model, keyIndex);
    }
  }

  lemma {:induction false} RunKeepsInv(limits: Limits, calls: seq<Call>, model: string, keyIndex: nat, now: real)
    requires model in limits && ClockOnlyAdvances(calls)
    requires forall c :: c in calls ==> c.now <= now
    ensures BucketInv(BucketAt(Run(limits, calls), BucketName(model, keyIndex)), Admissions(limits, calls, model, keyIndex), limits[model], now)
  {
    if calls != [] {
      var before, c := calls[..|calls| - 1], calls[|calls| - 1];
      var name := BucketName(model, keyIndex);
      forall b | b in before ensures b.now <= c.now {
        var i :| 0 <= i < |before| && before[i] == b;
        assert calls[i] == b;
      }
      RunKeepsInv(limits, before, model, keyIndex, c.now);
      RunsOneBucket(limits, Run(limits, before), c, model, keyIndex);
      hide BucketName, Tried, Admits;
      var times, admitted := BucketAt(Run(limits, before), name), Admissions(limits, before, model, keyIndex);
      if For(c, model, keyIndex) {
        TriedKeepsInv(times, admitted, limits[model], c.now, c.now);
      } else {
        assert Admissions(limits, calls, model, keyIndex) == admitted + [] == admitted;
      }
      LaterKeepsInv(BucketAt(Run(limits, calls), name), Admissions(limits, calls, model, keyIndex), limits[model], c.now, now);
    }
  }

  lemma LaterKeepsInv(times: seq<real>, admitted: seq<real>, limit: Limit, now: real, later: real)
    requires BucketInv(times, admitted, limit, now) && now <= later
    ensures BucketInv(times, admitted, limit, later)
  {
  }

  // ---- safety ----

  function CountIn(times: seq<real>, from: real, to: real): nat {
    if times == [] then 0
    else CountIn(times[..|times| - 1], from, to) + if from <= times[|times| - 1] < to then 1 else 0
  }

  lemma {:induction false} CountConcat(a: seq<real>, b: seq<real>, from: real, to: real)
    ensures CountIn(a + b, from, to) == CountIn(a, from, to) + CountIn(b, from, to)
  {
    if b == [] {
      assert a + b == a;
    } else {
      assert (a + b)[..|a + b| - 1] == a + b[..|b| - 1];
      CountConcat(a, b[..|b| - 1], from, to);
    }
  }

  lemma {:induction false} CountNone(times: seq<real>, from: real, to: real)
    requires forall i :: 0 <= i < |times| ==> !(from <= times[i] < to)
    ensures CountIn(times, from, to) == 0
  {
    if times != [] {
      CountNone(times[..|times| - 1], from, to);
    }
  }

  lemma {:induction false} CountAll(times: seq<real>, from: real, to: real)
    ensures CountIn(times, from, to) <= |times|
    ensures (forall i :: 0 <= i < |times| ==> from <= times[i] < to) ==> CountIn(times, from, to) == |times|
  {
    if times != [] {
      CountAll(times[..|times| - 1], from, to);
    }
  }

  /** No admission that is `maxCalls` or more places after one from `from` on is still in its window. */
  lemma WindowEnds(times: seq<real>, limit: Limit, from: real, first: nat, k: nat)
    requires Ascending(times) && Spaced(times, limit)
    requires first + limit.maxCalls <= k < |times| && times[first] >= from
    ensures times[k] >= from + limit.window
  {
    assert times[first + limit.maxCalls] - times[first] >= limit.window;
    assert first + limit.maxCalls < k ==> times[first + limit.maxCalls] <= times[k];
  }

  lemma SpacedCount(times: seq<real>, limit: Limit, from: real)
    requires Ascending(times) && Spaced(times, limit)
    ensures CountIn(times, from, from + limit.window) <= limit.maxCalls
  {
    hide CountIn, Spaced;
    var to := from + limit.window;
    if first: nat :| first < |times| && times[first] >= from && forall k :: 0 <= k < first ==> times[k] < from {
      var last := if first + limit.maxCalls <= |times| then first + limit.maxCalls else |times|;
      var a, b, c := times[..first], times[first..last], times[last..];
      assert times == a + (b + c);
      forall k | last <= k < |times| ensures times[k] >= to {
        WindowEnds(times, limit, from, first, k);
      }
      hide Ascending;
      CountConcat(a, b + c, from, to);
      CountConcat(b, c, from, to);
      CountNone(a, from, to);
      CountNone(c, from, to);
      CountAll(b, from, to);
    } else {
      NoneFrom(times, from);
      CountNone(times, from, to);
    }
  }

  lemma {:induction false} NoneFrom(times: seq<real>, from: real)
    requires !exists first: nat :: first < |times| && times[first] >= from && forall k :: 0 <= k < first ==> times[k] < from
    ensures forall k :: 0 <= k < |times| ==> times[k] < from
  {
    if times != [] {
      var before := times[..|times| - 1];
      forall first: nat | first < |before| ensures !(before[first] >= from && forall k :: 0 <= k < first ==> before[k] < from) {
        if before[first] >= from && forall k :: 0 <= k < first ==> before[k] < from {
          assert forall k :: 0 <= k < first ==> times[k] == before[k];
          assert times[first] >= from;
        }
      }
      NoneFrom(before, from);
      assert forall k :: 0 <= k < |before| ==> times[k] == before[k];
    }
  }

  /** However the callers interleave, no half-open window contains more admissions of a (model, key)
      pair than its limit allows. */
  lemma NeverOverLimit(limits: Limits, calls: seq<Call>, model: string, keyIndex: nat, from: real)
    requires model in limits && ClockOnlyAdvances(calls)
    ensures CountIn(Admissions(limits, calls, model, keyIndex), from, from + limits[model].window) <= limits[model].maxCalls
  {
    hide CountIn, Admissions, Run, Ascending, Spaced, Remembers;
    var now := if calls == [] then 0.0 else calls[|calls| - 1].now;
    RunKeepsInv(limits, calls, model, keyIndex, now);
    SpacedCount(Admissions(limits, calls, model, keyIndex), limits[model], from);
  }

  /** And no call is held back needlessly: it is let through exactly when fewer admissions than the limit
      are less than a window old. */
  lemma AdmitsExactly(limits: Limits, calls: seq<Call>, c: Call)
    requires c.model in limits && ClockOnlyAdvances(calls + [c])
    ensures var limit, admitted := limits[c.model], Admissions(limits, calls, c.model, c.keyIndex);
      Admits(BucketAt(Run(limits, calls), c.Bucket()), limit, c.now) <==> Recent(admitted, limit.window, c.now) < limit.maxCalls
  {
    var limit, admitted := limits[c.model], Admissions(limits, calls, c.model, c.keyIndex);
    forall i, j | 0 <= i < j < |calls| ensures calls[i].now <= calls[j].now {
      assert (calls + [c])[i] == calls[i] && (calls + [c])[j] == calls[j];
    }
    forall b | b in calls ensures b.now <= c.now {
      var i :| 0 <= i < |calls| && calls[i] == b;
      assert (calls + [c])[i] == b && (calls + [c])[|calls|] == c;
    }
    RunKeepsInv(limits, calls, c.model, c.keyIndex, c.now);
    TriedKeepsInv(BucketAt(Run(limits, calls), c.Bucket()), admitted, limit, c.now, c.now);
    PrunedIsRecent(BucketAt(Run(limits, calls), c.Bucket()), admitted, limit, c.now);
  }

  /** How many of these times are less than a window old. */
  function Recent(times: seq<real>, window: real, now: real): nat {
    if times == [] then 0
    else Recent(times[..|times| - 1], window, now) + if now - times[|times| - 1] < window then 1 else 0
  }

  lemma {:induction false} RecentOfParts(gone: seq<real>, young: seq<real>, window: real, now: real)
    requires forall i :: 0 <= i < |gone| ==> now - gone[i] >= window
    requires forall i :: 0 <= i < |young| ==> now - young[i] < window
    ensures Recent(gone + young, window, now) == |young|
  {
    var all := gone + young;
    if young != [] {
      assert all[..|all| - 1] == gone + young[..|young| - 1];
      RecentOfParts(gone, young[..|young| - 1], window, now);
    } else if gone != [] {
      assert all == gone && gone[..|gone| - 1] + [] == gone[..|gone| - 1];
      RecentOfParts(gone[..|gone| - 1], [], window, now);
    }
  }

  lemma SuffixAscends(young: seq<real>, admitted: seq<real>, i: nat)
    requires Suffix(young, admitted) && Ascending(admitted) && i < |young|
    ensures young[0] <= young[i]
  {
    var gone := |admitted| - |young|;
    assert young[0] == admitted[gone] && young[i] == admitted[gone + i];
  }

  lemma PrunedIsRecent(times: seq<real>, admitted: seq<real>, limit: Limit, now: real)
    requires BucketInv(times, admitted, limit, now)
    ensures Recent(admitted, limit.window, now) == |Pruned(times, now, limit.window)|
  {
    var young := Pruned(times, now, limit.window);
    PruningKeepsInv(times, admitted, limit, now, now);
    forall i | 0 <= i < |young| ensures now - young[i] < limit.window {
      SuffixAscends(young, admitted, i);
    }
    AllButTheRest(young, admitted, limit, now);
  }

  lemma AllButTheRest(young: seq<real>, admitted: seq<real>, limit: Limit, now: real)
    requires Remembers(young, admitted, limit, now)
    requires forall i :: 0 <= i < |young| ==> now - young[i] < limit.window
    ensures Recent(admitted, limit.window, now) == |young|
  {
    hide Recent;
    var older := admitted[..|admitted| - |young|];
    assert admitted == older + young;
    RecentOfParts(older, young, limit.window, now);
  }

  // ---- the program ----

  /** When nobody else calls, the head of a full queue is what a refused caller waits for. */
  lemma SleepSuffices(times: seq<real>, limit: Limit, now: real, later: real)
    requires limit.Usable() && |times| <= limit.maxCalls && !Admits(times, limit, now)
    requires var pruned := Pruned(times, now, limit.window); later >= now + (limit.window - (now - pruned[0]))
    ensures Admits(Tried(times, limit, now), limit, later)
  {
    var pruned := Pruned(times, now, limit.window);
    assert pruned == times;
    assert Tried(times, limit, now) == pruned + [] == pruned;
  }

  class Limiter {
    const limits: Limits
    var calls: Buckets

    constructor (limits: Limits)
      ensures this.limits == limits && calls == map[]
    {
      this.limits, calls := limits, map[];
    }

    /** One pass through the lock at time `now`: either the call goes ahead or the caller is told how
        long to sleep before it tries again. */
    method Enter(model: string, keyIndex: nat, now: real) returns (admitted: bool, sleepFor: real)
      requires model in limits && limits[model].Usable()
      modifies this
      ensures calls == Apply(limits, old(calls), Call(model, keyIndex, now))
      ensures var times, limit := BucketAt(old(calls), BucketName(model, keyIndex)), limits[model];
        && admitted == Admits(times, limit, now)
        && (!admitted ==>
              var pruned := Pruned(times, now, limit.window);
              pruned != [] && sleepFor == limit.window - (now - pruned[0]) && 0.0 < sleepFor)
    {
      var bucket := BucketName(model, keyIndex);
      var limit := limits[model];
      var times := BucketAt(calls, bucket);
      ghost var all := times;
      while times != [] && now - times[0] >= limit.window
        invariant Pruned(times, now, limit.window) == Pruned(all, now, limit.window)
        decreases |times|
      {
        times := times[1..];
      }
      assert times == Pruned(all, now, limit.window);
      admitted := |times| < limit.maxCalls;
      sleepFor := 0.0;
      if admitted {
        times := times + [now];
      } else {
        sleepFor := limit.window - (now - times[0]);
      }
      calls := calls[bucket := times];
      assert times == Tried(all, limit, now);
    }

    /** `wait` as called by the only user of a bucket, from time `now` on; every sleep may take longer than
        asked for. At most one sleep is needed, and none when the window has room. */
    method Wait(model: string, keyIndex: nat, now: real, oversleep: nat -> real) returns (at: real, sleeps: nat)
      requires model in limits ==>
        limits[model].Usable() && |BucketAt(calls, BucketName(model, keyIndex))| <= limits[model].maxCalls
      requires forall k :: oversleep(k) >= 0.0
      modifies this
      ensures sleeps <= 1 && at >= now
      ensures model !in limits ==> at == now && sleeps == 0 && calls == old(calls)
      ensures model in limits ==>
        var times := BucketAt(old(calls), BucketName(model, keyIndex));
        && (sleeps == 0 <==> Admits(times, limits[model], now))
        && (sleeps == 0 ==> at == now)
        && (sleeps == 1 ==>
              && times != []
              && var left := limits[model].window - (now - times[0]); at == now + (if left < 0.05 then 0.05 else left) + oversleep(0))
        && BucketName(model, keyIndex) in calls
        && calls[BucketName(model, keyIndex)] != [] && calls[BucketName(model, keyIndex)][|calls[BucketName(model, keyIndex)]| - 1] == at
    {
      at, sleeps := now, 0;
      if model !in limits { return; }
      ghost var limit, name, first := limits[model], BucketName(model, keyIndex), BucketAt(calls, BucketName(model, keyIndex));
      while true
        invariant at >= now && sleeps <= 1
        invariant sleeps == 0 ==> at == now && BucketAt(calls, name) == first
        invariant sleeps == 1 ==>
          && !Admits(first, limit, now) && Admits(BucketAt(calls, name), limit, at) && first != []
          && var left := limit.window - (now - first[0]); at == now + (if left < 0.05 then 0.05 else left) + oversleep(0)
        decreases 1 - sleeps
      {
        ghost var times := BucketAt(calls, name);
        var admitted, sleepFor := Enter(model, keyIndex, at);
        if admitted { return; }
        var later := at + (if sleepFor < MIN_SLEEP then MIN_SLEEP else sleepFor) + oversleep(sleeps);
        SleepSuffices(times, limit, at, later);
        at, sleeps := later, sleeps + 1;
      }
    }
  }
}
