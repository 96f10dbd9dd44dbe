/** A round against a provider that always answers with a rate limit before any output: which models and
    keys are asked, in which order, and how the round ends. */
module RotationLaps {
  import opened KeyFailover
  import opened ModelRotation

  const Limited: Attempt := Attempt([], Some(RateLimited))

  ghost predicate AlwaysLimited(provider: Provider) {
    forall n, k :: provider(n)(k) == Limited
  }

  predicate Distinct(models: seq<string>) {
    forall i, j :: 0 <= i < j < |models| ==> models[i] != models[j]
  }

  // ---- the walk that the tables alone determine ----

  /** What a failing attempt on a model looks through: the ring of its tier or, without one, the tier. */
  function Candidates(catalog: Catalog, model: string): seq<string> {
    if catalog.Ring(model) != [] then catalog.Ring(model) else catalog.Order(model)
  }

  datatype Place = Place(model: string, tried: set<string>)

  function PlaceOf(s: State): Place {
    Place(s.model, s.tried)
  }

  /** Every candidate has been tried in this lap. */
  predicate Dry(catalog: Catalog, p: Place) {
    FirstUntried(Candidates(catalog, p.model), p.tried).None?
  }

  /** Dry, and without a ring to go round. */
  predicate Over(catalog: Catalog, p: Place) {
    Dry(catalog, p) && catalog.Ring(p.model) == []
  }

  function Moved(catalog: Catalog, p: Place): Place {
    match FirstUntried(Candidates(catalog, p.model), p.tried)
    case Some(m) => Place(m, p.tried + {m})
    case None => if Over(catalog, p) then p else Place(catalog.Ring(p.model)[0], {catalog.Ring(p.model)[0]})
  }

  function PlaceAfter(catalog: Catalog, p: Place, n: nat): Place
    decreases n
  {
    if n == 0 then p else PlaceAfter(catalog, Moved(catalog, p), n - 1)
  }

  lemma {:induction false} OneMoreMove(catalog: Catalog, p: Place, n: nat)
    ensures PlaceAfter(catalog, p, n + 1) == Moved(catalog, PlaceAfter(catalog, p, n))
    decreases n
  {
    hide Moved;
    if n > 0 {
      OneMoreMove(catalog, Moved(catalog, p), n - 1);
    }
  }

  lemma {:induction false} OverStays(catalog: Catalog, p: Place, n: nat)
    requires Over(catalog, p)
    ensures PlaceAfter(catalog, p, n) == p
  {
    if n > 0 {
      OverStays(catalog, p, n - 1);
    }
  }

  // ---- a failing round follows the walk ----

  lemma {:induction false} LimitedSettles(key: nat, usable: nat, responses: Responses)
    requires forall k :: responses(k) == Limited
    ensures Settled(key, usable, responses) == if key < usable then usable - 1 else key
    decreases usable - key
  {
    assert responses(key).Skippable();
    if key + 1 < usable {
      LimitedSettles(key + 1, usable, responses);
    }
  }

  /** One attempt of such a round fails, and the next goes where the rotation says. */
  lemma LimitedAttempt(catalog: Catalog, usable: string -> nat, provider: Provider, attempt: nat, s: State)
    requires AlwaysLimited(provider) && 1 <= attempt <= MAX_ATTEMPTS
    ensures var s', asked := AfterKeys(s, usable(s.model), provider(attempt)), Requested(s, usable(s.model), provider(attempt));
      var next := Retry(catalog, s', attempt, RateLimited);
      Attempts(catalog, usable, provider, attempt, s) ==
        if next.None? then RoundResult(Raised(RateLimited), [], s.model, s'.keys, [s.model], asked)
        else Preceded([s.model], asked, Attempts(catalog, usable, provider, attempt + 1, next.value))
  {
    hide Settled, Retry, Requested;
    assert Answer(s, usable(s.model), provider(attempt)) == Limited;
    assert VisiblePart(Limited.Given()) == [];
  }

  lemma RetryMoves(catalog: Catalog, s: State, attempt: nat)
    requires 1 <= attempt <= MAX_ATTEMPTS
    ensures var next := Retry(catalog, s, attempt, RateLimited); var p := PlaceOf(s);
      && (next.None? <==> attempt >= 2 && (Over(catalog, p) || (Dry(catalog, p) && attempt == MAX_ATTEMPTS)))
      && (next.Some? ==>
            && PlaceOf(next.value) == Moved(catalog, p)
            && next.value.keys == if Dry(catalog, p) && !Over(catalog, p) then Reset(s.keys, catalog.Ring(s.model)) else s.keys)
  {
  }

  /** The models of the tries are those of the walk, and the tries stop early only where it is over. */
  ghost predicate Follows(catalog: Catalog, p: Place, attempt: nat, tries: seq<string>) {
    && 1 <= |tries| && attempt + |tries| <= MAX_ATTEMPTS + 1
    && (forall i :: 0 <= i < |tries| ==> tries[i] == PlaceAfter(catalog, p, i).model)
    && (attempt + |tries| <= MAX_ATTEMPTS ==> Over(catalog, PlaceAfter(catalog, p, |tries| - 1)))
    && (forall i :: 0 <= i < |tries| - 1 && Over(catalog, PlaceAfter(catalog, p, i)) ==> attempt + i == 1)
  }

  lemma FollowsCons(catalog: Catalog, p: Place, attempt: nat, tries: seq<string>)
    requires Follows(catalog, Moved(catalog, p), attempt + 1, tries) && (Over(catalog, p) ==> attempt == 1)
    ensures Follows(catalog, p, attempt, [p.model] + tries)
  {
    hide Moved, Over;
    var all := [p.model] + tries;
    forall i | 0 <= i < |all| ensures all[i] == PlaceAfter(catalog, p, i).model {
    }
    forall i | 0 < i < |all| ensures PlaceAfter(catalog, p, i) == PlaceAfter(catalog, Moved(catalog, p), i - 1) {
    }
  }

  /** How a wholly rate-limited round ends, for any tables, start and attempt: with an error if the walk is
      dry where its eighth attempt falls, and otherwise silently, without an answer and without an error. */
  lemma {:induction false} FailedRoundEnds(catalog: Catalog, usable: string -> nat, provider: Provider, attempt: nat, s: State)
    requires AlwaysLimited(provider) && 1 <= attempt <= MAX_ATTEMPTS
    ensures var r, p, n := Attempts(catalog, usable, provider, attempt, s), PlaceOf(s), MAX_ATTEMPTS - attempt;
      && r.shown == []
      && r.end == (if Dry(catalog, PlaceAfter(catalog, p, n)) then Raised(RateLimited) else Silent)
      && Follows(catalog, p, attempt, r.tries)
      && r.model == PlaceAfter(catalog, p, if r.end.Silent? then n + 1 else n).model
    decreases MAX_ATTEMPTS - attempt
  {
    hide Settled, Retry, Attempts, Dry, Over, Moved, Follows, AlwaysLimited, Requested;
    var p, n := PlaceOf(s), MAX_ATTEMPTS - attempt;
    LimitedAttempt(catalog, usable, provider, attempt, s);
    var s' := AfterKeys(s, usable(s.model), provider(attempt));
    RetryMoves(catalog, s', attempt);
    var next := Retry(catalog, s', attempt, RateLimited);
    if next.None? {
      StopsHere(catalog, p, attempt);
    } else if attempt < MAX_ATTEMPTS {
      FailedRoundEnds(catalog, usable, provider, attempt + 1, next.value);
      FollowsCons(catalog, p, attempt, Attempts(catalog, usable, provider, attempt + 1, next.value).tries);
    } else {
      LastAttempt(catalog, usable, provider, p, next.value);
      assert [s.model] + [] == [s.model];
    }
  }

  lemma StopsHere(catalog: Catalog, p: Place, attempt: nat)
    requires attempt <= MAX_ATTEMPTS && (Over(catalog, p) || (Dry(catalog, p) && attempt == MAX_ATTEMPTS))
    ensures Follows(catalog, p, attempt, [p.model])
    ensures Dry(catalog, PlaceAfter(catalog, p, MAX_ATTEMPTS - attempt))
    ensures PlaceAfter(catalog, p, MAX_ATTEMPTS - attempt) == p
  {
    if Over(catalog, p) {
      OverStays(catalog, p, MAX_ATTEMPTS - attempt);
    }
  }

  lemma LastAttempt(catalog: Catalog, usable: string -> nat, provider: Provider, p: Place, s: State)
    requires PlaceOf(s) == Moved(catalog, p)
    ensures Attempts(catalog, usable, provider, MAX_ATTEMPTS + 1, s) == RoundResult(Silent, [], s.model, s.keys, [], [])
    ensures Follows(catalog, p, MAX_ATTEMPTS, [p.model]) && s.model == PlaceAfter(catalog, p, 1).model
  {
    hide Moved;
    assert PlaceAfter(catalog, p, 0) == p && PlaceAfter(catalog, p, 1) == PlaceAfter(catalog, Moved(catalog, p), 0);
  }

  // ---- going back ----

  function Models(catalog: Catalog, p: Place, n: nat): (models: seq<string>)
    ensures |models| == n && forall i :: 0 <= i < n ==> models[i] == PlaceAfter(catalog, p, i).model
  {
    seq(n, i requires 0 <= i < n => PlaceAfter(catalog, p, i).model)
  }

  function SetOf(models: seq<string>): set<string> {
    set m | m in models
  }

  /** Until the walk runs dry it only meets new models, and remembers all of them. */
  lemma {:induction false} NewUntilDry(catalog: Catalog, p: Place, n: nat)
    requires p.tried == {p.model} && forall i :: 0 <= i < n ==> !Dry(catalog, PlaceAfter(catalog, p, i))
    ensures Distinct(Models(catalog, p, n + 1)) && PlaceAfter(catalog, p, n).tried == SetOf(Models(catalog, p, n + 1))
  {
    var models := Models(catalog, p, n + 1);
    if n == 0 {
      assert models == [p.model];
    } else {
      NewUntilDry(catalog, p, n - 1);
      OneMoreMove(catalog, p, n - 1);
      assert models == Models(catalog, p, n) + [models[n]];
      assert models[n] !in SetOf(Models(catalog, p, n));
    }
  }

  /** A failing round goes back to a model it has already tried exactly when some place before its last is
      dry; there it starts its ring again or, on its very first attempt only, stays where it is. */
  lemma ComesBackIff(catalog: Catalog, usable: string -> nat, provider: Provider, model: string, keys: map<string, nat>)
    requires AlwaysLimited(provider)
    ensures var p, tries := Place(model, {model}), Attempts(catalog, usable, provider, 1, State(model, {model}, keys)).tries;
      !Distinct(tries) <==> exists i :: 0 <= i < |tries| - 1 && Dry(catalog, PlaceAfter(catalog, p, i))
  {
    hide Attempts, AlwaysLimited, Distinct;
    FailedRoundEnds(catalog, usable, provider, 1, State(model, {model}, keys));
    var p, tries := Place(model, {model}), Attempts(catalog, usable, provider, 1, State(model, {model}, keys)).tries;
    assert tries == Models(catalog, p, |tries|);
    hide Dry, Moved;
    var i := FirstDry(catalog, p, |tries| - 1);
    NewUntilDry(catalog, p, i);
    if i < |tries| - 1 {
      OneMoreMove(catalog, p, i);
      BackToTried(catalog, PlaceAfter(catalog, p, i), Models(catalog, p, i + 1));
      Repeated(tries, Models(catalog, p, i + 1), i + 1);
    }
  }

  lemma {:induction false} FirstDry(catalog: Catalog, p: Place, n: nat) returns (i: nat)
    ensures i <= n && (forall k :: 0 <= k < i ==> !Dry(catalog, PlaceAfter(catalog, p, k)))
    ensures i < n ==> Dry(catalog, PlaceAfter(catalog, p, i))
  {
    hide Dry, PlaceAfter;
    if n == 0 {
      i := 0;
    } else {
      i := FirstDry(catalog, p, n - 1);
      if i == n - 1 && !Dry(catalog, PlaceAfter(catalog, p, i)) {
        i := n;
      }
    }
  }

  lemma BackToTried(catalog: Catalog, p: Place, models: seq<string>)
    requires Dry(catalog, p) && p.tried == SetOf(models) && p.model in models
    ensures Moved(catalog, p).model in models
  {
    if catalog.Ring(p.model) != [] {
      assert catalog.Ring(p.model)[0] in Candidates(catalog, p.model);
    }
  }

  lemma Repeated(tries: seq<string>, before: seq<string>, i: nat)
    requires i < |tries| && before == tries[..i] && tries[i] in before
    ensures !Distinct(tries)
  {
    var k :| 0 <= k < i && before[k] == tries[i];
    assert tries[k] == tries[i];
  }

  // ---- a ring that keeps its models ----

  /** A ring without repetitions that all of its models belong to. */
  predicate OneRing(catalog: Catalog, ring: seq<string>) {
    && ring != [] && (forall m :: m in ring ==> catalog.Ring(m) == ring)
    && Distinct(ring)
  }

  function Untried(models: seq<string>, tried: set<string>): seq<string> {
    if models == [] then []
    else (if models[0] !in tried then [models[0]] else []) + Untried(models[1..], tried)
  }

  lemma {:induction false} UntriedFirst(models: seq<string>, tried: set<string>)
    ensures FirstUntried(models, tried) == if Untried(models, tried) == [] then None else Some(Untried(models, tried)[0])
    ensures forall m :: m in Untried(models, tried) ==> m in models
  {
    if models != [] {
      UntriedFirst(models[1..], tried);
    }
  }

  lemma {:induction false} UntriedUnchanged(models: seq<string>, tried: set<string>, m: string)
    requires m !in models
    ensures Untried(models, tried + {m}) == Untried(models, tried)
  {
    if models != [] {
      UntriedUnchanged(models[1..], tried, m);
    }
  }

  lemma {:induction false} UntriedNext(models: seq<string>, tried: set<string>)
    requires Untried(models, tried) != [] && Distinct(models)
    ensures Untried(models, tried + {Untried(models, tried)[0]}) == Untried(models, tried)[1..]
  {
    if models[0] in tried {
      UntriedNext(models[1..], tried);
    } else {
      assert Untried(models, tried)[1..] == Untried(models[1..], tried);
      UntriedUnchanged(models[1..], tried, models[0]);
    }
  }

  lemma {:induction false} UntriedNone(models: seq<string>)
    ensures Untried(models, {}) == models
  {
    if models != [] {
      UntriedNone(models[1..]);
    }
  }

  /** With one model of the ring tried, all others are left. */
  lemma {:induction false} UntriedButOne(models: seq<string>, m: string)
    requires m in models && Distinct(models)
    ensures |Untried(models, {m})| == |models| - 1
  {
    if models[0] == m {
      UntriedUnchanged(models[1..], {}, m);
      UntriedNone(models[1..]);
      assert {} + {m} == {m};
    } else {
      UntriedButOne(models[1..], m);
    }
  }

  lemma ModuloLap(a: int, n: int)
    requires n > 0
    ensures (a - n) % n == a % n
  {
    assert a - n == n * ((a - n) / n) + (a - n) % n;
    assert a == n * ((a - n) / n + 1) + (a - n) % n;
    Remainder(a, n, (a - n) / n + 1, (a - n) % n);
  }

  lemma MultipleIsLarge(n: int, d: int)
    requires n > 0
    ensures d >= 1 ==> n * d >= n
    ensures d <= -1 ==> n * d <= -n
  {
  }

  lemma Remainder(a: int, n: int, q: int, r: int)
    requires n > 0 && a == n * q + r && 0 <= r < n
    ensures a % n == r
  {
    var d := q - a / n;
    assert n * d == a % n - r;
    MultipleIsLarge(n, d);
  }

  /** Within one ring, the walk goes to the next untried model or round the ring. */
  lemma MoveInRing(catalog: Catalog, ring: seq<string>, p: Place)
    requires OneRing(catalog, ring) && catalog.Ring(p.model) == ring
    ensures var left, q := Untried(ring, p.tried), Moved(catalog, p);
      && catalog.Ring(q.model) == ring && (Dry(catalog, p) <==> left == [])
      && |Untried(ring, q.tried)| == (if left != [] then |left| else |ring|) - 1
  {
    UntriedFirst(ring, p.tried);
    if Untried(ring, p.tried) != [] {
      UntriedNext(ring, p.tried);
    } else {
      UntriedButOne(ring, ring[0]);
    }
  }

  /** It is dry whenever a whole number of laps has followed the rest of the first. */
  lemma {:induction false} RingWalk(catalog: Catalog, ring: seq<string>, p: Place, n: nat)
    requires OneRing(catalog, ring) && catalog.Ring(p.model) == ring
    ensures var left := |Untried(ring, p.tried)|;
      Dry(catalog, PlaceAfter(catalog, p, n)) <==> left <= n && (n - left) % |ring| == 0
    decreases n
  {
    hide Untried, Moved, Dry;
    MoveInRing(catalog, ring, p);
    hide OneRing;
    if n > 0 {
      RingWalk(catalog, ring, Moved(catalog, p), n - 1);
      ModuloLap(n, |ring|);
    }
  }

  lemma DryAtTheEnd(catalog: Catalog, ring: seq<string>, model: string)
    requires OneRing(catalog, ring) && model in ring
    ensures Dry(catalog, PlaceAfter(catalog, Place(model, {model}), MAX_ATTEMPTS - 1)) <==> MAX_ATTEMPTS % |ring| == 0
  {
    assert ring != [] && Distinct(ring) && catalog.Ring(model) == ring;
    hide Dry, PlaceAfter, OneRing, Untried, Distinct;
    UntriedButOne(ring, model);
    RingWalk(catalog, ring, Place(model, {model}), MAX_ATTEMPTS - 1);
    var n := |ring|;
    assert MAX_ATTEMPTS - 1 - (n - 1) == MAX_ATTEMPTS - n;
    LastOfLap(n);
  }

  /** A failing round that starts on any model of a ring that keeps its models ends with an error if the
      length of the ring divides the number of attempts, and silently otherwise. */
  lemma RingDividesAttempts(catalog: Catalog, ring: seq<string>, usable: string -> nat, provider: Provider, model: string, keys: map<string, nat>)
    requires AlwaysLimited(provider) && OneRing(catalog, ring) && model in ring
    ensures var r := Attempts(catalog, usable, provider, 1, State(model, {model}, keys));
      r.end == if MAX_ATTEMPTS % |ring| == 0 then Raised(RateLimited) else Silent
  {
    DryAtTheEnd(catalog, ring, model);
    hide Attempts, AlwaysLimited, Dry, PlaceAfter, Follows, OneRing;
    FailedRoundEnds(catalog, usable, provider, 1, State(model, {model}, keys));
  }

  lemma LastOfLap(n: int)
    requires n > 0
    ensures n <= MAX_ATTEMPTS && (MAX_ATTEMPTS - n) % n == 0 <==> MAX_ATTEMPTS % n == 0
  {
    ModuloLap(MAX_ATTEMPTS, n);
    if n > MAX_ATTEMPTS {
      Remainder(MAX_ATTEMPTS, n, 0, MAX_ATTEMPTS);
    }
  }

  // ---- laps ----

  /** All usable keys of a model, in order; a provider without keys is still called once. */
  function EveryKey(model: string, usable: nat): seq<(string, nat)> {
    OnKeys(model, 0, if usable == 0 then 1 else usable)
  }

  function EveryPair(models: seq<string>, usable: string -> nat): seq<(string, nat)> {
    if models == [] then [] else EveryKey(models[0], usable(models[0])) + EveryPair(models[1..], usable)
  }

  /** From the first model of these, each is followed by the next. */
  predicate Chained(catalog: Catalog, ring: seq<string>) {
    ChainedFrom(catalog, ring, 0)
  }

  predicate ChainedFrom(catalog: Catalog, ring: seq<string>, i: nat) {
    forall k :: i <= k < |ring| - 1 ==> Follower(catalog, ring, k)
  }

  predicate Follower(catalog: Catalog, ring: seq<string>, k: nat)
    requires k + 1 < |ring|
  {
    FirstUntried(Candidates(catalog, ring[k]), SetOf(ring[..k + 1])) == Some(ring[k + 1])
  }

  /** A model that was never rotated starts at its first key. */
  lemma FreshModelRequests(s: State, usable: nat, responses: Responses)
    requires s.model !in s.keys && forall k :: responses(k) == Limited
    ensures Requested(s, usable, responses) == EveryKey(s.model, usable)
  {
    LimitedSettles(0, usable, responses);
  }

  lemma FirstRequest(catalog: Catalog, usable: string -> nat, provider: Provider, attempt: nat, s: State)
    requires AlwaysLimited(provider) && 1 <= attempt <= MAX_ATTEMPTS
    ensures var r := Attempts(catalog, usable, provider, attempt, s).requests; r != [] && r[0].0 == s.model
  {
    LimitedAttempt(catalog, usable, provider, attempt, s);
  }

  /** The lap has come to model `i`: those up to it are tried, the keys of the later ones are untouched. */
  ghost predicate InLap(ring: seq<string>, i: nat, s: State) {
    && i < |ring| && s.model == ring[i] && s.tried == SetOf(ring[..i + 1])
    && forall j :: i <= j < |ring| ==> ring[j] !in s.keys
  }

  lemma LapMove(catalog: Catalog, ring: seq<string>, i: nat, usable: nat, responses: Responses, attempt: nat, s: State)
    requires Distinct(ring) && InLap(ring, i, s) && i + 1 < |ring| && 1 <= attempt < MAX_ATTEMPTS
    ensures var next := Retry(catalog, AfterKeys(s, usable, responses), attempt, RateLimited);
      && (Follower(catalog, ring, i) ==> next.Some? && InLap(ring, i + 1, next.value))
      && (!Follower(catalog, ring, i) ==> next.None? || next.value.model != ring[i + 1])
  {
    hide Settled, Retry;
    var s' := AfterKeys(s, usable, responses);
    RetryMoves(catalog, s', attempt);
    assert ring[..i + 2] == ring[..i + 1] + [ring[i + 1]];
    assert ring[i] in ring[..i + 1] && ring[i + 1] !in ring[..i + 1];
    if Dry(catalog, PlaceOf(s')) {
      BackToTried(catalog, PlaceOf(s'), ring[..i + 1]);
    }
  }

  lemma {:induction false} LapFrom(catalog: Catalog, ring: seq<string>, usable: string -> nat, provider: Provider, attempt: nat, i: nat, s: State)
    requires AlwaysLimited(provider) && Distinct(ring) && InLap(ring, i, s)
    requires 1 <= attempt && attempt + |ring| - i <= MAX_ATTEMPTS + 1
    ensures EveryPair(ring[i..], usable) <= Attempts(catalog, usable, provider, attempt, s).requests <==> ChainedFrom(catalog, ring, i)
    decreases |ring| - i
  {
    hide Settled, EveryKey, Retry, Requested, Attempts, Distinct, Follower;
    LimitedAttempt(catalog, usable, provider, attempt, s);
    FreshModelRequests(s, usable(s.model), provider(attempt));
    var asked := EveryKey(s.model, usable(s.model));
    assert ring[i..][1..] == ring[i + 1..];
    if i + 1 < |ring| {
      var rest := EveryPair(ring[i + 1..], usable);
      FirstPair(ring[i + 1..], usable);
      LapMove(catalog, ring, i, usable(s.model), provider(attempt), attempt, s);
      var next := Retry(catalog, AfterKeys(s, usable(s.model), provider(attempt)), attempt, RateLimited);
      hide InLap;
      if next.Some? {
        FirstRequest(catalog, usable, provider, attempt + 1, next.value);
        var requests := Attempts(catalog, usable, provider, attempt + 1, next.value).requests;
        PrefixAfter(asked, rest, requests);
        if Follower(catalog, ring, i) {
          LapFrom(catalog, ring, usable, provider, attempt + 1, i + 1, next.value);
        } else {
          assert !(rest <= requests);
        }
      }
    } else {
      assert EveryPair(ring[i..], usable) == asked + [] == asked;
    }
  }

  lemma PrefixAfter<T>(a: seq<T>, b: seq<T>, c: seq<T>)
    ensures a + b <= a + c <==> b <= c
  {
    assert (a + b)[|a|..] == b && (a + c)[|a|..] == c;
    if a + b <= a + c {
      assert (a + c)[..|a + b|] == a + b;
      assert c[..|b|] == (a + c)[|a|..|a| + |b|];
    }
  }

  lemma FirstPair(models: seq<string>, usable: string -> nat)
    requires models != []
    ensures var r := EveryPair(models, usable); r != [] && r[0].0 == models[0]
  {
  }

  lemma {:induction false} FirstUntriedAt(models: seq<string>, tried: set<string>, i: nat)
    requires i <= |models| && forall j :: 0 <= j < i ==> models[j] in tried
    requires i < |models| ==> models[i] !in tried
    ensures FirstUntried(models, tried) == if i < |models| then Some(models[i]) else None
  {
    if i > 0 {
      FirstUntriedAt(models[1..], tried, i - 1);
    }
  }

  /** A ring that all its models but the last belong to leads from each to the next. */
  lemma RingIsChained(catalog: Catalog, ring: seq<string>)
    requires Distinct(ring) && forall k :: 0 <= k < |ring| - 1 ==> catalog.Ring(ring[k]) == ring
    ensures Chained(catalog, ring)
  {
    forall k | 0 <= k < |ring| - 1 ensures Follower(catalog, ring, k) {
      assert ring[k + 1] !in ring[..k + 1];
      assert forall j :: 0 <= j <= k ==> ring[j] in ring[..k + 1];
      FirstUntriedAt(ring, SetOf(ring[..k + 1]), k + 1);
    }
  }

  /** A lap that begins with fresh keys calls every usable (model, key) pair of the ring once, model by
      model, if and only if the tables lead from each model of the ring to the next. Where the last
      model leads does not matter. */
  lemma LapCallsEveryPair(catalog: Catalog, ring: seq<string>, usable: string -> nat, provider: Provider, attempt: nat, keys: map<string, nat>)
    requires AlwaysLimited(provider) && ring != [] && Distinct(ring) && 1 <= attempt && attempt + |ring| <= MAX_ATTEMPTS + 1
    ensures var s := State(ring[0], {ring[0]}, Reset(keys, ring));
      EveryPair(ring, usable) <= Attempts(catalog, usable, provider, attempt, s).requests <==> Chained(catalog, ring)
  {
    hide Attempts, AlwaysLimited, Follower, EveryPair;
    var s := State(ring[0], {ring[0]}, Reset(keys, ring));
    assert ring[..1] == [ring[0]] && ring[0..] == ring;
    assert InLap(ring, 0, s);
    LapFrom(catalog, ring, usable, provider, attempt, 0, s);
  }

  /** If the last model belongs to the ring too, the next lap follows, or nothing. */
  lemma {:induction false} LapsFollowLaps(catalog: Catalog, ring: seq<string>, usable: string -> nat, provider: Provider, attempt: nat, i: nat, s: State)
      returns (keys: map<string, nat>)
    requires AlwaysLimited(provider) && Distinct(ring) && InLap(ring, i, s)
    requires ChainedFrom(catalog, ring, i) && catalog.Ring(ring[|ring| - 1]) == ring
    requires 1 <= attempt && attempt + |ring| - i <= MAX_ATTEMPTS + 1
    ensures Attempts(catalog, usable, provider, attempt, s).requests == EveryPair(ring[i..], usable)
      + if attempt + |ring| - i > MAX_ATTEMPTS then []
        else Attempts(catalog, usable, provider, attempt + |ring| - i, State(ring[0], {ring[0]}, Reset(keys, ring))).requests
    decreases |ring| - i
  {
    hide Settled, EveryKey, Retry, Requested, Attempts, Distinct, Follower, Reset;
    LimitedAttempt(catalog, usable, provider, attempt, s);
    FreshModelRequests(s, usable(s.model), provider(attempt));
    var asked, s' := EveryKey(s.model, usable(s.model)), AfterKeys(s, usable(s.model), provider(attempt));
    assert ring[i..][1..] == ring[i + 1..];
    keys := s'.keys;
    if i + 1 < |ring| {
      LapMove(catalog, ring, i, usable(s.model), provider(attempt), attempt, s);
      var next := Retry(catalog, s', attempt, RateLimited).value;
      hide InLap;
      keys := LapsFollowLaps(catalog, ring, usable, provider, attempt + 1, i + 1, next);
      assert Attempts(catalog, usable, provider, attempt, s).requests == asked + Attempts(catalog, usable, provider, attempt + 1, next).requests;
    } else {
      assert EveryPair(ring[i..], usable) == asked + [] == asked;
      EndOfLap(catalog, ring, s', attempt);
    }
  }

  lemma EndOfLap(catalog: Catalog, ring: seq<string>, s: State, attempt: nat)
    requires ring != [] && catalog.Ring(s.model) == ring && s.tried == SetOf(ring[..|ring|]) && 1 <= attempt <= MAX_ATTEMPTS
    ensures Retry(catalog, s, attempt, RateLimited) ==
      if attempt < MAX_ATTEMPTS then Some(State(ring[0], {ring[0]}, Reset(s.keys, ring))) else if attempt >= 2 then None else Some(s)
  {
    hide Reset;
    assert ring[..|ring|] == ring;
    var next := FirstUntried(ring, s.tried);
    assert next.None?;
  }

  // ---- a ring that does not keep its models ----

  /** The ring of the first four models, the last of which belongs to a tier without a ring, and that tier. */
  predicate LeakyRing(catalog: Catalog, ms: seq<string>) {
    && |ms| == 7 && Distinct(ms)
    && (forall i :: 0 <= i < 3 ==> catalog.Ring(ms[i]) == ms[..4])
    && (forall i :: 3 <= i < 7 ==> catalog.Ring(ms[i]) == [] && catalog.Order(ms[i]) == [ms[3], ms[1], ms[4], ms[5], ms[2], ms[6]])
  }

  /** The tables that make it so. */
  lemma TablesAreLeaky(catalog: Catalog, ms: seq<string>, heavy: string, balanced: string)
    requires |ms| == 7 && Distinct(ms) && balanced !in catalog.rings
    requires heavy in catalog.rings && catalog.rings[heavy] == [ms[0], ms[1], ms[2], ms[3]]
    requires balanced in catalog.orders && catalog.orders[balanced] == [ms[3], ms[1], ms[4], ms[5], ms[2], ms[6]]
    requires forall i :: 0 <= i < 7 ==> ms[i] in catalog.tier && catalog.tier[ms[i]] == if i < 3 then heavy else balanced
    ensures LeakyRing(catalog, ms)
  {
    assert ms[..4] == [ms[0], ms[1], ms[2], ms[3]];
  }

  /** It is gone through from its first model to its last. */
  lemma LeakyRingIsChained(catalog: Catalog, ms: seq<string>)
    requires LeakyRing(catalog, ms)
    ensures Chained(catalog, ms[..4])
  {
    RingIsChained(catalog, ms[..4]);
  }

  /** The walk from the first of these places goes through all the others. */
  predicate IsWalk(catalog: Catalog, places: seq<Place>) {
    forall i :: 0 <= i < |places| - 1 ==> places[i + 1] == Moved(catalog, places[i])
  }

  lemma {:induction false} WalkedPlaces(catalog: Catalog, places: seq<Place>, n: nat)
    requires IsWalk(catalog, places) && n < |places|
    ensures PlaceAfter(catalog, places[0], n) == places[n]
  {
    hide Moved;
    if n > 0 {
      WalkedPlaces(catalog, places, n - 1);
      OneMoreMove(catalog, places[0], n - 1);
    }
  }

  /** A walk over these models that is never over. */
  ghost predicate Route(catalog: Catalog, places: seq<Place>, visits: seq<string>) {
    && IsWalk(catalog, places) && |places| == |visits|
    && forall i :: 0 <= i < |places| ==> places[i].model == visits[i] && !Over(catalog, places[i])
  }

  lemma RouteJoin(catalog: Catalog, a: seq<Place>, b: seq<Place>, visits: seq<string>, more: seq<string>)
    requires Route(catalog, a, visits) && Route(catalog, b, more) && a != [] && b != []
    requires b[0] == Moved(catalog, a[|a| - 1])
    ensures Route(catalog, a + b, visits + more)
  {
    hide Moved, Over;
    var all := a + b;
    forall i | 0 <= i < |all| - 1 ensures all[i + 1] == Moved(catalog, all[i]) {
      if i >= |a| {
        assert all[i] == b[i - |a|] && all[i + 1] == b[i - |a| + 1];
      }
    }
  }

  /** What a failing round does when eight places of its walk are known. */
  lemma RoundOnRoute(catalog: Catalog, usable: string -> nat, provider: Provider, keys: map<string, nat>, places: seq<Place>, visits: seq<string>)
    requires AlwaysLimited(provider) && Route(catalog, places, visits) && |visits| == MAX_ATTEMPTS
    requires places[0] == Place(visits[0], {visits[0]}) && !Dry(catalog, places[7])
    ensures var r := Attempts(catalog, usable, provider, 1, State(visits[0], {visits[0]}, keys));
      r.end == Silent && r.tries == visits && r.model == Moved(catalog, places[7]).model
  {
    hide Attempts, Moved, Over, Dry, PlaceAfter, IsWalk, AlwaysLimited;
    FailedRoundEnds(catalog, usable, provider, 1, State(visits[0], {visits[0]}, keys));
    forall n | 0 <= n < |places| ensures PlaceAfter(catalog, places[0], n) == places[n] {
      WalkedPlaces(catalog, places, n);
    }
    OneMoreMove(catalog, places[0], 7);
  }

  /** What it does when the walk is over before its last attempt. */
  lemma RoundUntilOver(catalog: Catalog, usable: string -> nat, provider: Provider, keys: map<string, nat>, places: seq<Place>, visits: seq<string>)
    requires AlwaysLimited(provider) && Route(catalog, places, visits) && 1 <= |visits| < MAX_ATTEMPTS - 1
    requires places[0] == Place(visits[0], {visits[0]}) && Over(catalog, Moved(catalog, places[|places| - 1]))
    ensures var r, last := Attempts(catalog, usable, provider, 1, State(visits[0], {visits[0]}, keys)), Moved(catalog, places[|places| - 1]).model;
      r.end == Raised(RateLimited) && r.tries == visits + [last] && r.model == last
  {
    hide Attempts, Moved, PlaceAfter, IsWalk, Candidates, AlwaysLimited;
    FailedRoundEnds(catalog, usable, provider, 1, State(visits[0], {visits[0]}, keys));
    forall n | 0 <= n < |places| ensures PlaceAfter(catalog, places[0], n) == places[n] {
      WalkedPlaces(catalog, places, n);
    }
    OneMoreMove(catalog, places[0], |places| - 1);
    forall n | |places| <= n ensures PlaceAfter(catalog, places[0], n) == Moved(catalog, places[|places| - 1]) {
      StaysOver(catalog, places[0], |places|, n);
    }
  }

  lemma {:induction false} StaysOver(catalog: Catalog, p: Place, last: nat, n: nat)
    requires Over(catalog, PlaceAfter(catalog, p, last)) && last <= n
    ensures PlaceAfter(catalog, p, n) == PlaceAfter(catalog, p, last)
    decreases n
  {
    hide Over, PlaceAfter;
    if n > last {
      StaysOver(catalog, p, last, n - 1);
      OneMoreMove(catalog, p, n - 1);
      OverMoves(catalog, PlaceAfter(catalog, p, last));
    }
  }

  lemma OverMoves(catalog: Catalog, p: Place)
    requires Over(catalog, p)
    ensures Moved(catalog, p) == p
  {
  }

  lemma MoveTo(catalog: Catalog, p: Place, i: nat) returns (q: Place)
    requires var models := Candidates(catalog, p.model);
      i < |models| && models[i] !in p.tried && forall j :: 0 <= j < i ==> models[j] in p.tried
    ensures q == Moved(catalog, p) == Place(Candidates(catalog, p.model)[i], p.tried + {Candidates(catalog, p.model)[i]})
    ensures !Dry(catalog, p) && !Over(catalog, p)
  {
    FirstUntriedAt(Candidates(catalog, p.model), p.tried, i);
    q := Moved(catalog, p);
  }

  lemma MoveRound(catalog: Catalog, p: Place) returns (q: Place)
    requires var ring := catalog.Ring(p.model); ring != [] && forall m :: m in ring ==> m in p.tried
    ensures q == Moved(catalog, p) == Place(catalog.Ring(p.model)[0], {catalog.Ring(p.model)[0]}) && !Over(catalog, p)
  {
    FirstUntriedAt(catalog.Ring(p.model), p.tried, |catalog.Ring(p.model)|);
    q := Moved(catalog, p);
  }

  lemma NowhereLeft(catalog: Catalog, p: Place)
    requires catalog.Ring(p.model) == [] && forall m :: m in Candidates(catalog, p.model) ==> m in p.tried
    ensures Over(catalog, p)
  {
    FirstUntriedAt(Candidates(catalog, p.model), p.tried, |Candidates(catalog, p.model)|);
  }

  lemma LeakyTables(catalog: Catalog, ms: seq<string>)
    requires LeakyRing(catalog, ms)
    ensures forall i :: 0 <= i < 3 ==> catalog.Ring(ms[i]) == Candidates(catalog, ms[i]) == [ms[0], ms[1], ms[2], ms[3]]
    ensures forall i :: 3 <= i < 7 ==> catalog.Ring(ms[i]) == [] && Candidates(catalog, ms[i]) == [ms[3], ms[1], ms[4], ms[5], ms[2], ms[6]]
  {
    assert ms[..4] == [ms[0], ms[1], ms[2], ms[3]];
  }

  /** Started on its first model, the ring is gone through to its last. */
  lemma ThroughTheRing(catalog: Catalog, ms: seq<string>) returns (places: seq<Place>, last: Place)
    requires LeakyRing(catalog, ms)
    ensures Route(catalog, places, [ms[0], ms[1], ms[2]]) && places[0].tried == {ms[0]} && !Dry(catalog, places[2])
    ensures last == Moved(catalog, places[2]) == Place(ms[3], {ms[0], ms[1], ms[2], ms[3]})
  {
    LeakyTables(catalog, ms);
    hide LeakyRing, Moved, Dry, Over, Candidates;
    var p0 := Place(ms[0], {ms[0]});
    var p1 := MoveTo(catalog, p0, 1);
    var p2 := MoveTo(catalog, p1, 2);
    last := MoveTo(catalog, p2, 3);
    places := [p0, p1, p2];
    assert last.tried == {ms[0], ms[1], ms[2], ms[3]};
  }

  /** Started on its last model, where the other tier is looked through first, the ring is entered by its
      second, used up, and begun again. */
  lemma BackToTheStart(catalog: Catalog, ms: seq<string>, out: set<string>) returns (places: seq<Place>)
    requires LeakyRing(catalog, ms) && out <= {ms[6]}
    ensures Route(catalog, places, [ms[3], ms[1], ms[0], ms[2]]) && places[0].tried == out + {ms[3]}
    ensures Moved(catalog, places[3]) == Place(ms[0], {ms[0]})
  {
    LeakyTables(catalog, ms);
    hide LeakyRing, Moved, Dry, Over, Candidates;
    var p0 := Place(ms[3], out + {ms[3]});
    var p1 := MoveTo(catalog, p0, 1);
    var p2 := MoveTo(catalog, p1, 0);
    var p3 := MoveTo(catalog, p2, 2);
    var p4 := MoveRound(catalog, p3);
    places := [p0, p1, p2, p3];
  }

  /** What is visited from the ring's last model on until it comes next again. */
  function RoundFromLast(ms: seq<string>): seq<string>
    requires |ms| == 7
  {
    [ms[3], ms[1], ms[0], ms[2], ms[0], ms[1], ms[2]]
  }

  lemma RoundTheRing(catalog: Catalog, ms: seq<string>, out: set<string>) returns (places: seq<Place>, last: Place)
    requires LeakyRing(catalog, ms) && out <= {ms[6]}
    ensures Route(catalog, places, RoundFromLast(ms))
    ensures places[0] == Place(ms[3], out + {ms[3]}) && !Dry(catalog, places[6])
    ensures last == Moved(catalog, places[6]) == Place(ms[3], {ms[0], ms[1], ms[2], ms[3]})
  {
    var start := BackToTheStart(catalog, ms, out);
    var again;
    again, last := ThroughTheRing(catalog, ms);
    hide LeakyRing, Moved, Over, Dry, IsWalk;
    RouteJoin(catalog, start, again, [ms[3], ms[1], ms[0], ms[2]], [ms[0], ms[1], ms[2]]);
    places := start + again;
    assert [ms[3], ms[1], ms[0], ms[2]] + [ms[0], ms[1], ms[2]] == [ms[3], ms[1], ms[0], ms[2], ms[0], ms[1], ms[2]];
  }

  /** After the ring's last model the walk goes on down the other tier. */
  lemma DownTheTier(catalog: Catalog, ms: seq<string>, p3: Place) returns (places: seq<Place>, last: Place)
    requires LeakyRing(catalog, ms) && p3 == Place(ms[3], {ms[0], ms[1], ms[2], ms[3]})
    ensures Route(catalog, places, [ms[3], ms[4], ms[5]]) && places[0] == p3
    ensures last == Moved(catalog, places[2]) && last.model == ms[6] && Over(catalog, last)
  {
    LeakyTables(catalog, ms);
    hide LeakyRing, Moved, Dry, Over, Candidates;
    var p4 := MoveTo(catalog, p3, 2);
    var p5 := MoveTo(catalog, p4, 3);
    last := MoveTo(catalog, p5, 5);
    NowhereLeft(catalog, last);
    places := [p3, p4, p5];
  }

  /** With the shipped tables and every model available, the heavy ring is such a ring. A failing round that
      starts on its first model leaves it for the balanced tier, walks down that and gives up there on its
      seventh attempt. */
  lemma HeavyRingIsLeft(catalog: Catalog, ms: seq<string>, usable: string -> nat, provider: Provider, keys: map<string, nat>)
    requires AlwaysLimited(provider) && LeakyRing(catalog, ms)
    ensures var r := Attempts(catalog, usable, provider, 1, State(ms[0], {ms[0]}, keys));
      r.end == Raised(RateLimited) && r.tries == ms && r.model == ms[6]
  {
    var ring, p3 := ThroughTheRing(catalog, ms);
    var tier, last := DownTheTier(catalog, ms, p3);
    hide Moved, Over, Dry, IsWalk, Attempts, AlwaysLimited;
    RouteJoin(catalog, ring, tier, [ms[0], ms[1], ms[2]], [ms[3], ms[4], ms[5]]);
    RoundUntilOver(catalog, usable, provider, keys, ring + tier, [ms[0], ms[1], ms[2]] + [ms[3], ms[4], ms[5]]);
    assert ms == [ms[0], ms[1], ms[2]] + [ms[3], ms[4], ms[5]] + [ms[6]];
  }

  lemma RouteSnoc(catalog: Catalog, places: seq<Place>, p: Place, visits: seq<string>)
    requires Route(catalog, places, visits) && places != [] && p == Moved(catalog, places[|places| - 1]) && !Over(catalog, p)
    ensures Route(catalog, places + [p], visits + [p.model])
    ensures |places| == |visits|
  {
    RouteJoin(catalog, places, [p], visits, [p.model]);
  }

  lemma RouteOne(catalog: Catalog, p: Place)
    requires !Over(catalog, p)
    ensures Route(catalog, [p], [p.model])
  {
  }

  lemma LastGoesOn(catalog: Catalog, ms: seq<string>, p: Place)
    requires LeakyRing(catalog, ms) && p == Place(ms[3], {ms[0], ms[1], ms[2], ms[3]})
    ensures !Dry(catalog, p) && !Over(catalog, p) && Moved(catalog, p).model == ms[4]
  {
    LeakyTables(catalog, ms);
    hide LeakyRing, Moved, Over, Dry, Candidates;
    var next := MoveTo(catalog, p, 2);
  }

  lemma FromLast(ms: seq<string>)
    requires |ms| == 7
    ensures RoundFromLast(ms) + [ms[3]] == [ms[3], ms[1], ms[0], ms[2], ms[0], ms[1], ms[2], ms[3]]
  {
  }

  lemma FromOther(ms: seq<string>)
    requires |ms| == 7
    ensures [ms[6]] + RoundFromLast(ms) == [ms[6], ms[3], ms[1], ms[0], ms[2], ms[0], ms[1], ms[2]]
  {
  }

  lemma OtherTierRoute(catalog: Catalog, ms: seq<string>) returns (places: seq<Place>)
    requires LeakyRing(catalog, ms)
    ensures Route(catalog, places, [ms[6]] + RoundFromLast(ms))
    ensures |places| == 8 && places[0] == Place(ms[6], {ms[6]}) && !Dry(catalog, places[7]) && Moved(catalog, places[7]).model == ms[3]
  {
    var p0 := Place(ms[6], {ms[6]});
    var ring, p8 := RoundTheRing(catalog, ms, {ms[6]});
    OtherTierEnters(catalog, ms);
    assert |ring| == |RoundFromLast(ms)| == 7 && {ms[6]} + {ms[3]} == {ms[6], ms[3]};
    hide *;
    RouteOne(catalog, p0);
    RouteJoin(catalog, [p0], ring, [ms[6]], RoundFromLast(ms));
    places := [p0] + ring;
  }

  lemma OtherTierEnters(catalog: Catalog, ms: seq<string>)
    requires LeakyRing(catalog, ms)
    ensures Moved(catalog, Place(ms[6], {ms[6]})) == Place(ms[3], {ms[6], ms[3]}) && !Over(catalog, Place(ms[6], {ms[6]}))
  {
    LeakyTables(catalog, ms);
    hide LeakyRing, Moved, Over, Dry, Candidates;
    var p := MoveTo(catalog, Place(ms[6], {ms[6]}), 0);
  }

  /** When the last place is known apart from the others. */
  lemma RoundOnRouteThen(catalog: Catalog, usable: string -> nat, provider: Provider, keys: map<string, nat>, places: seq<Place>, visits: seq<string>, last: Place)
    requires AlwaysLimited(provider) && Route(catalog, places, visits) && |visits| == |places| == MAX_ATTEMPTS - 1
    requires places[0] == Place(visits[0], {visits[0]})
    requires last == Moved(catalog, places[MAX_ATTEMPTS - 2]) && !Dry(catalog, last) && !Over(catalog, last)
    ensures var r := Attempts(catalog, usable, provider, 1, State(visits[0], {visits[0]}, keys));
      r.end == Silent && r.tries == visits + [last.model] && r.model == Moved(catalog, last).model
  {
    hide Route, Attempts, AlwaysLimited, Moved, Dry, Over;
    RouteSnoc(catalog, places, last, visits);
    RoundOnRoute(catalog, usable, provider, keys, places + [last], visits + [last.model]);
  }

  /** One that starts on its last model comes round to it and ends silently in the middle of a lap. */
  lemma HeavyRingIsGoneRound(catalog: Catalog, ms: seq<string>, usable: string -> nat, provider: Provider, keys: map<string, nat>)
    requires AlwaysLimited(provider) && LeakyRing(catalog, ms)
    ensures var r := Attempts(catalog, usable, provider, 1, State(ms[3], {ms[3]}, keys));
      r.end == Silent && r.tries == [ms[3], ms[1], ms[0], ms[2], ms[0], ms[1], ms[2], ms[3]] && r.model == ms[4]
  {
    var ring, p7 := RoundTheRing(catalog, ms, {});
    assert |ms| == 7 && {} + {ms[3]} == {ms[3]} && |ring| == |RoundFromLast(ms)| == 7 && RoundFromLast(ms)[0] == ms[3];
    hide LeakyRing, Route, RoundFromLast, Attempts, AlwaysLimited, Moved, Dry, Over;
    LastGoesOn(catalog, ms, p7);
    FromLast(ms);
    RoundOnRouteThen(catalog, usable, provider, keys, ring, RoundFromLast(ms), p7);
  }

  /** So two failing rounds in a row, from the ring's first model: the first ends with an error and leaves
      the job on a model of the balanced tier, and the second, which starts there, ends silently, whatever
      the keys and usable keys are. */
  lemma FailingRoundsDisagree(catalog: Catalog, ms: seq<string>, usable: string -> nat, first: Provider, second: Provider, keys: map<string, nat>)
    requires AlwaysLimited(first) && AlwaysLimited(second) && LeakyRing(catalog, ms)
    ensures var r := Attempts(catalog, usable, first, 1, State(ms[0], {ms[0]}, keys));
      var next := Attempts(catalog, usable, second, 1, State(r.model, {r.model}, r.keys));
      && r.end == Raised(RateLimited)
      && next.end == Silent && next.tries == [ms[6], ms[3], ms[1], ms[0], ms[2], ms[0], ms[1], ms[2]] && next.model == ms[3]
  {
    assert |ms| == 7;
    hide *;
    HeavyRingIsLeft(catalog, ms, usable, first, keys);
    var places := OtherTierRoute(catalog, ms);
    var visits := [ms[6]] + RoundFromLast(ms);
    FromOther(ms);
    RoundOnRoute(catalog, usable, second, Attempts(catalog, usable, first, 1, State(ms[0], {ms[0]}, keys)).keys, places, visits);
  }
}
