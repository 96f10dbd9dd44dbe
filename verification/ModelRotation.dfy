/** Rotation over models within one round: up to eight attempts, each of which first uses up the keys of
    its model, as long as nothing has been shown to the user. */
module ModelRotation {
  import opened KeyFailover

  const MAX_ATTEMPTS: nat := 8

  /** Which models are available where: a model's tier, the failover ring of a tier (empty if it has
      none) and the tier's full preference order. */
  datatype Catalog = Catalog(tier: map<string, string>, rings: map<string, seq<string>>, orders: map<string, seq<string>>) {
    function Ring(model: string): seq<string> {
      if model in tier && tier[model] in rings then rings[tier[model]] else []
    }

    function Order(model: string): seq<string> {
      if model in tier && tier[model] in orders then orders[tier[model]] else []
    }
  }

  /** `next((m for m in models if m not in tried), None)` */
  function FirstUntried(models: seq<string>, tried: set<string>): (r: Option<string>)
    ensures r.Some? ==> r.value in models && r.value !in tried
    ensures r.None? ==> forall m :: m in models ==> m in tried
  {
    if models == [] then None
    else if models[0] !in tried then Some(models[0])
    else FirstUntried(models[1..], tried)
  }

  /** The model in use, the models tried in this lap, and the active keys. */
  datatype State = State(model: string, tried: set<string>, keys: map<string, nat>)

  function KeyIn(keys: map<string, nat>, model: string): nat {
    if model in keys then keys[model] else 0
  }

  function KeysAfter(keys: map<string, nat>, model: string, key: nat): map<string, nat> {
    if key == KeyIn(keys, model) then keys else keys[model := key]
  }

  function Reset(keys: map<string, nat>, models: seq<string>): map<string, nat> {
    keys - (set m | m in models)
  }

  /** Where an attempt that failed before showing anything goes: to an untried model of the ring (or, for a
      tier without one, of the tier), or round a used-up ring with its keys reset, except after the
      last attempt. `None` means there is nowhere to go. */
  function NextModel(catalog: Catalog, s: State, attempt: nat): Option<State> {
    var ring := catalog.Ring(s.model);
    var untried := FirstUntried(if ring != [] then ring else catalog.Order(s.model), s.tried);
    if untried.Some? then Some(State(untried.value, s.tried + {untried.value}, s.keys))
    else if ring != [] && attempt < MAX_ATTEMPTS then Some(State(ring[0], {ring[0]}, Reset(s.keys, ring)))
    else None
  }

  /** The very first failure is retried on the same model when no other is in sight. */
  function Retry(catalog: Catalog, s: State, attempt: nat, error: ProviderError): Option<State> {
    var next := if error.NextModelMayHelp() then NextModel(catalog, s, attempt) else None;
    if next.Some? then next else if attempt >= 2 then None else Some(s)
  }

  /** A refused key or a fatal error never changes the model; a rate limit and a transient error both lead to the
      first model not tried yet, round the ring again when there is none, or, the first time, to the same
      model once more. */
  lemma RetryMeans(catalog: Catalog, s: State, attempt: nat, error: ProviderError)
    ensures var r, ring := Retry(catalog, s, attempt, error), catalog.Ring(s.model);
      var models := if ring != [] then ring else catalog.Order(s.model);
      if error.AuthFailed? || error.Fatal? then r == if attempt >= 2 then None else Some(s)
      else if exists m :: m in models && m !in s.tried then
        && r.Some? && r.value == State(r.value.model, s.tried + {r.value.model}, s.keys) && r.value.model !in s.tried
        && exists i :: 0 <= i < |models| && models[i] == r.value.model && forall j :: 0 <= j < i ==> models[j] in s.tried
      else if ring != [] && attempt < 8 then
        r == Some(State(ring[0], {ring[0]}, s.keys - (set m | m in ring)))
      else r == if attempt >= 2 then None else Some(s)
  {
    var ring := catalog.Ring(s.model);
    FirstUntriedIsFirst(if ring != [] then ring else catalog.Order(s.model), s.tried);
  }

  lemma {:induction false} FirstUntriedIsFirst(models: seq<string>, tried: set<string>)
    ensures var r := FirstUntried(models, tried);
      r.Some? ==> exists i :: 0 <= i < |models| && models[i] == r.value && forall j :: 0 <= j < i ==> models[j] in tried
  {
    if models != [] && models[0] in tried {
      FirstUntriedIsFirst(models[1..], tried);
      var r := FirstUntried(models[1..], tried);
      if r.Some? {
        var i :| 0 <= i < |models[1..]| && models[1..][i] == r.value && forall j :: 0 <= j < i ==> models[1..][j] in tried;
        assert models[i + 1] == r.value && forall j :: 0 < j < i + 1 ==> models[j] == models[1..][j - 1];
      }
    }
  }

  function VisiblePart(chunks: seq<Chunk>): seq<Chunk> {
    if chunks == [] then []
    else VisiblePart(chunks[..|chunks| - 1]) + if chunks[|chunks| - 1].Visible() then [chunks[|chunks| - 1]] else []
  }

  /** Every chunk with a text is shown, as it is and in its place; nothing else is. */
  lemma {:induction false} VisiblePartSplit(before: seq<Chunk>, c: Chunk, after: seq<Chunk>)
    ensures VisiblePart([]) == []
    ensures VisiblePart(before + [c] + after)
      == VisiblePart(before) + (if c.reasoning == "" && c.content == "" then [] else [c]) + VisiblePart(after)
  {
    var chunks := before + [c] + after;
    if after == [] {
      assert chunks[..|chunks| - 1] == before;
      assert forall u: seq<Chunk> :: u + [] == u;
    } else {
      var init := after[..|after| - 1];
      assert chunks[..|chunks| - 1] == before + [c] + init;
      VisiblePartSplit(before, c, init);
      hide VisiblePart;
      VisiblePartEnd(chunks);
      VisiblePartEnd(after);
    }
  }

  lemma VisiblePartEnd(chunks: seq<Chunk>)
    requires chunks != []
    ensures var last := chunks[|chunks| - 1];
      VisiblePart(chunks) == VisiblePart(chunks[..|chunks| - 1]) + if last.Visible() then [last] else []
  {
  }

  datatype RoundEnd = Finished | Raised(error: ProviderError) | Silent

  /** `model` and `keys` are what the round leaves in use, `tries` lists the model of every attempt and
      `requests` the (model, key) of every provider call. */
  datatype RoundResult = RoundResult(
    end: RoundEnd, shown: seq<Chunk>, model: string, keys: map<string, nat>, tries: seq<string>, requests: seq<(string, nat)>)

  /** What the provider does, by attempt and key. */
  type Provider = nat -> Responses

  /** Key failover within the attempt moved the model's key. */
  function AfterKeys(s: State, usable: nat, responses: Responses): State {
    s.(keys := KeysAfter(s.keys, s.model, Settled(KeyIn(s.keys, s.model), usable, responses)))
  }

  function Answer(s: State, usable: nat, responses: Responses): Attempt {
    responses(Settled(KeyIn(s.keys, s.model), usable, responses))
  }

  function Requested(s: State, usable: nat, responses: Responses): seq<(string, nat)> {
    Asked(s.model, KeyIn(s.keys, s.model), usable, responses)
  }

  /** What happened before the rest of a round. */
  function Preceded(tries: seq<string>, requests: seq<(string, nat)>, rest: RoundResult): RoundResult {
    rest.(tries := tries + rest.tries, requests := requests + rest.requests)
  }

  /** Everything from attempt number `attempt` on. */
  function Attempts(catalog: Catalog, usable: string -> nat, provider: Provider, attempt: nat, s: State): (r: RoundResult)
    requires attempt >= 1
    ensures r.end.Silent? ==> r.shown == []
    ensures |r.tries| <= MAX_ATTEMPTS + 1 - attempt || attempt > MAX_ATTEMPTS
    decreases MAX_ATTEMPTS + 1 - attempt
  {
    if attempt > MAX_ATTEMPTS then RoundResult(Silent, [], s.model, s.keys, [], [])
    else
      var asked := Requested(s, usable(s.model), provider(attempt));
      var a := Answer(s, usable(s.model), provider(attempt));
      var s' := AfterKeys(s, usable(s.model), provider(attempt));
      var shown := VisiblePart(a.Given());
      if a.error.None? then RoundResult(Finished, shown, s.model, s'.keys, [s.model], asked)
      else if shown != [] then RoundResult(Raised(a.error.value), shown, s.model, s'.keys, [s.model], asked)
      else
        var next := Retry(catalog, s', attempt, a.error.value);
        if next.None? then RoundResult(Raised(a.error.value), [], s.model, s'.keys, [s.model], asked)
        else Preceded([s.model], asked, Attempts(catalog, usable, provider, attempt + 1, next.value))
  }

  ghost predicate FromOne(shown: seq<Chunk>, provider: Provider, attempt: nat, key: nat) {
    shown == VisiblePart(provider(attempt)(key).chunks)
  }

  lemma ShownIsAll(a: Attempt)
    requires VisiblePart(a.Given()) != []
    ensures VisiblePart(a.Given()) == VisiblePart(a.chunks)
  {
    assert VisiblePart([]) == [];
  }

  /** Whatever is shown in a round is everything visible that came from one attempt on one key. */
  lemma {:induction false} SingleAttempt(catalog: Catalog, usable: string -> nat, provider: Provider, attempt: nat, s: State)
    requires attempt >= 1
    ensures var r := Attempts(catalog, usable, provider, attempt, s);
      r.shown == [] || exists n, k :: attempt <= n <= MAX_ATTEMPTS && FromOne(r.shown, provider, n, k)
    decreases MAX_ATTEMPTS + 1 - attempt
  {
    hide VisiblePart, Settled, Retry, Requested, Attempt.Given;
    var r := Attempts(catalog, usable, provider, attempt, s);
    if attempt <= MAX_ATTEMPTS && r.shown != [] {
      var a := Answer(s, usable(s.model), provider(attempt));
      if VisiblePart(a.Given()) != [] {
        ShownIsAll(a);
        assert FromOne(r.shown, provider, attempt, Settled(KeyIn(s.keys, s.model), usable(s.model), provider(attempt)));
      } else {
        var next := Retry(catalog, AfterKeys(s, usable(s.model), provider(attempt)), attempt, a.error.value);
        SingleAttempt(catalog, usable, provider, attempt + 1, next.value);
      }
    }
  }

  /** The attempts of a round from number `attempt` on ran on these keys: all but the last failed with nothing
      to show, the round shows and ends as the last one did, and it only ends silently after the eighth. */
  ghost predicate RanOn(r: RoundResult, provider: Provider, attempt: nat, keys: seq<nat>) {
    && |keys| == |r.tries|
    && (forall i :: 0 <= i < |keys| ==> (r.tries[i], keys[i]) in r.requests)
    && (forall i :: 0 <= i < |keys| - 1 ==>
          provider(attempt + i)(keys[i]).error.Some? && VisiblePart(provider(attempt + i)(keys[i]).Given()) == [])
    && (keys != [] ==>
          var a := provider(attempt + |keys| - 1)(keys[|keys| - 1]);
          && r.shown == VisiblePart(a.Given())
          && (r.end.Finished? <==> a.error.None?)
          && (r.end.Raised? ==> a.error == Some(r.end.error)))
    && (r.end.Silent? ==> attempt + |keys| == if attempt > 8 then attempt else 9)
  }

  ghost predicate LosesNothing(r: RoundResult, provider: Provider, attempt: nat) {
    exists keys :: RanOn(r, provider, attempt, keys)
  }

  lemma RanOnFirst(r: RoundResult, rest: RoundResult, provider: Provider, attempt: nat, model: string, key: nat,
                   requests: seq<(string, nat)>, keys: seq<nat>)
    requires attempt <= 8 && RanOn(rest, provider, attempt + 1, keys) && r == Preceded([model], requests, rest)
    requires provider(attempt)(key).error.Some? && VisiblePart(provider(attempt)(key).Given()) == []
    requires (model, key) in requests && (rest.tries == [] ==> rest.end.Silent? && rest.shown == [])
    ensures RanOn(r, provider, attempt, [key] + keys)
  {
    hide VisiblePart, Attempt.Given;
    var all := [key] + keys;
    forall i | 0 <= i < |all| ensures (r.tries[i], all[i]) in r.requests {
      if i > 0 {
        assert r.tries[i] == rest.tries[i - 1] && all[i] == keys[i - 1];
      }
    }
    forall i | 0 <= i < |all| - 1
      ensures provider(attempt + i)(all[i]).error.Some? && VisiblePart(provider(attempt + i)(all[i]).Given()) == []
    {
      if i > 0 {
        assert all[i] == keys[i - 1] && attempt + i == attempt + 1 + (i - 1);
      }
    }
    assert keys != [] ==> all[|all| - 1] == keys[|keys| - 1] && attempt + |all| - 1 == attempt + 1 + |keys| - 1;
  }

  lemma LastAsked(model: string, key: nat, usable: nat, responses: Responses)
    ensures (model, Settled(key, usable, responses)) in Asked(model, key, usable, responses)
  {
    hide Settled;
    var k := Settled(key, usable, responses);
    assert Asked(model, key, usable, responses)[k - key] == (model, k);
  }

  /** Nothing that could be shown is ever lost to a retry, and no failure is hidden but one that was retried. */
  lemma {:induction false} NothingShownIsLost(catalog: Catalog, usable: string -> nat, provider: Provider, attempt: nat, s: State)
    requires attempt >= 1
    ensures LosesNothing(Attempts(catalog, usable, provider, attempt, s), provider, attempt)
    decreases MAX_ATTEMPTS + 1 - attempt
  {
    hide VisiblePart, Settled, Retry, Requested, Attempt.Given, RanOn;
    var r := Attempts(catalog, usable, provider, attempt, s);
    if attempt > MAX_ATTEMPTS {
      OutOfAttemptsRan(catalog, usable, provider, attempt, s);
      return;
    }
    var a, asked := Answer(s, usable(s.model), provider(attempt)), Requested(s, usable(s.model), provider(attempt));
    var key := Settled(KeyIn(s.keys, s.model), usable(s.model), provider(attempt));
    SettledAsked(s, usable(s.model), provider(attempt));
    var next := if a.error.Some? then Retry(catalog, AfterKeys(s, usable(s.model), provider(attempt)), attempt, a.error.value) else None;
    if a.error.Some? && VisiblePart(a.Given()) == [] && next.Some? {
      NothingShownIsLost(catalog, usable, provider, attempt + 1, next.value);
      var rest := Attempts(catalog, usable, provider, attempt + 1, next.value);
      var keys :| RanOn(rest, provider, attempt + 1, keys);
      RanOnFirst(r, rest, provider, attempt, s.model, key, asked, keys);
    } else {
      RanOnLast(r, provider, attempt, key);
    }
  }

  lemma SettledAsked(s: State, usable: nat, responses: Responses)
    ensures var key := Settled(KeyIn(s.keys, s.model), usable, responses);
      Answer(s, usable, responses) == responses(key) && (s.model, key) in Requested(s, usable, responses)
  {
    LastAsked(s.model, KeyIn(s.keys, s.model), usable, responses);
  }

  lemma OutOfAttemptsRan(catalog: Catalog, usable: string -> nat, provider: Provider, attempt: nat, s: State)
    requires attempt > MAX_ATTEMPTS
    ensures LosesNothing(Attempts(catalog, usable, provider, attempt, s), provider, attempt)
  {
    assert RanOn(Attempts(catalog, usable, provider, attempt, s), provider, attempt, []);
  }

  lemma RanOnLast(r: RoundResult, provider: Provider, attempt: nat, key: nat)
    requires attempt <= 8 && |r.tries| == 1 && (r.tries[0], key) in r.requests && !r.end.Silent?
    requires var a := provider(attempt)(key);
      && r.shown == VisiblePart(a.Given()) && (r.end.Finished? <==> a.error.None?)
      && (r.end.Raised? ==> a.error == Some(r.end.error))
    ensures RanOn(r, provider, attempt, [key])
  {
    hide VisiblePart, Attempt.Given;
  }

  class RoundRunner {
    const llm: LLMClient
    const catalog: Catalog
    var model: string

    constructor (llm: LLMClient, catalog: Catalog, model: string)
      ensures this.llm == llm && this.catalog == catalog && this.model == model
    {
      this.llm, this.catalog, this.model := llm, catalog, model;
    }

    /** One round of the loop; `made` lists the provider calls it makes. */
    method RunRound(provider: Provider) returns (end: RoundEnd, shown: seq<Chunk>, tries: seq<string>, ghost made: seq<(string, nat)>)
      requires llm.Valid()
      modifies this, llm
      ensures llm.Valid()
      ensures Attempts(catalog, m => llm.UsableKeys(m), provider, 1, State(old(model), {old(model)}, old(llm.activeKey)))
        == RoundResult(end, shown, model, llm.activeKey, tries, made)
      ensures llm.requests == old(llm.requests) + made
    {
      hide *;
      ghost var usable := m => llm.UsableKeys(m);
      ghost var all := Attempts(catalog, usable, provider, 1, State(model, {model}, llm.activeKey));
      var tried := {model};
      tries := [];
      var attempt := 1;
      ghost var before := llm.requests;
      made := [];
      NothingTried(all);
      assert llm.requests == before + made;
      while attempt <= MAX_ATTEMPTS
        invariant 1 <= attempt && llm.Valid()
        invariant llm.requests == before + made
        invariant Remaining(all, tries, made, Attempts(catalog, usable, provider, attempt, State(model, tried, llm.activeKey)))
      {
        ghost var s := State(model, tried, llm.activeKey);
        var error;
        shown, error := TryModel(provider(attempt), tried);
        OneAttempt(all, tries, made, catalog, usable, provider, attempt, s, llm.activeKey);
        tries := tries + [model];
        ghost var asked := Requested(s, usable(s.model), provider(attempt));
        assert before + made + asked == before + (made + asked);
        made := made + asked;
        if error.None? { return Finished, shown, tries, made; }
        if shown != [] { return Raised(error.value), shown, tries, made; }
        var stuck;
        stuck, tried := SwitchModel(tried, attempt, error.value);
        if stuck { return Raised(error.value), [], tries, made; }
        attempt := attempt + 1;
      }
      OutOfAttempts(all, tries, made, catalog, usable, provider, attempt, State(model, tried, llm.activeKey));
      return Silent, [], tries, made;
    }

    method TryModel(responses: Responses, ghost tried: set<string>) returns (shown: seq<Chunk>, error: Option<ProviderError>)
      requires llm.Valid()
      modifies llm
      ensures llm.Valid()
      ensures var s, usable := old(State(model, tried, llm.activeKey)), llm.UsableKeys(model);
        && shown == VisiblePart(Answer(s, usable, responses).Given()) && error == Answer(s, usable, responses).error
        && State(model, tried, llm.activeKey) == AfterKeys(s, usable, responses)
        && llm.requests == old(llm.requests) + Requested(s, usable, responses)
    {
      hide VisiblePart, Settled;
      var given;
      given, error := llm.StreamWithKeyFailover(model, responses);
      shown := Visible(given);
    }

    method SwitchModel(tried: set<string>, attempt: nat, error: ProviderError) returns (stuck: bool, tried': set<string>)
      requires llm.Valid()
      modifies this, llm`activeKey
      ensures llm.Valid()
      ensures var next := Retry(catalog, old(State(model, tried, llm.activeKey)), attempt, error);
        stuck == next.None? && State(model, tried', llm.activeKey) == if stuck then old(State(model, tried, llm.activeKey)) else next.value
    {
      tried' := tried;
      if error.NextModelMayHelp() {
        var ring := catalog.Ring(model);
        var next := FirstUntried(if ring != [] then ring else catalog.Order(model), tried);
        if next.None? && ring != [] && attempt < MAX_ATTEMPTS {
          tried' := {};
          next := Some(ring[0]);
          llm.ResetKeys(ring);
        }
        if next.Some? {
          model := next.value;
          tried' := tried' + {model};
          return false, tried';
        }
      }
      return attempt >= 2, tried';
    }

    method Visible(given: seq<Chunk>) returns (shown: seq<Chunk>)
      ensures shown == VisiblePart(given)
    {
      shown := [];
      for i := 0 to |given|
        invariant shown == VisiblePart(given[..i])
      {
        assert given[..i + 1][..i] == given[..i];
        if given[i].Visible() {
          shown := shown + [given[i]];
        }
      }
      assert given[..|given|] == given;
    }
  }

  /** `rest` is what is left of `all` after these tries and requests. */
  ghost predicate Remaining(all: RoundResult, tries: seq<string>, made: seq<(string, nat)>, rest: RoundResult) {
    all == Preceded(tries, made, rest)
  }

  lemma NothingTried(all: RoundResult)
    ensures Remaining(all, [], [], all)
  {
  }

  lemma OneAttempt(all: RoundResult, tries: seq<string>, made: seq<(string, nat)>, catalog: Catalog, usable: string -> nat,
                   provider: Provider, attempt: nat, s: State, keys: map<string, nat>)
    requires 1 <= attempt <= MAX_ATTEMPTS && keys == AfterKeys(s, usable(s.model), provider(attempt)).keys
    requires Remaining(all, tries, made, Attempts(catalog, usable, provider, attempt, s))
    ensures var a := Answer(s, usable(s.model), provider(attempt)); var shown := VisiblePart(a.Given());
      var tries', made' := tries + [s.model], made + Requested(s, usable(s.model), provider(attempt));
      if a.error.None? then all == RoundResult(Finished, shown, s.model, keys, tries', made')
      else if shown != [] then all == RoundResult(Raised(a.error.value), shown, s.model, keys, tries', made')
      else
        var next := Retry(catalog, s.(keys := keys), attempt, a.error.value);
        if next.None? then all == RoundResult(Raised(a.error.value), [], s.model, keys, tries', made')
        else Remaining(all, tries', made', Attempts(catalog, usable, provider, attempt + 1, next.value))
  {
    hide VisiblePart, Settled, Retry, Requested;
    var a, asked := Answer(s, usable(s.model), provider(attempt)), Requested(s, usable(s.model), provider(attempt));
    if a.error.Some? && VisiblePart(a.Given()) == [] {
      var next := Retry(catalog, s.(keys := keys), attempt, a.error.value);
      if next.Some? {
        var rest := Attempts(catalog, usable, provider, attempt + 1, next.value);
        assert tries + ([s.model] + rest.tries) == tries + [s.model] + rest.tries;
        assert made + (asked + rest.requests) == made + asked + rest.requests;
      }
    }
  }

  lemma OutOfAttempts(all: RoundResult, tries: seq<string>, made: seq<(string, nat)>, catalog: Catalog, usable: string -> nat,
                      provider: Provider, attempt: nat, s: State)
    requires attempt > MAX_ATTEMPTS && Remaining(all, tries, made, Attempts(catalog, usable, provider, attempt, s))
    ensures all == RoundResult(Silent, [], s.model, s.keys, tries, made)
  {
  }
}
