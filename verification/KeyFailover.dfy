/** Rotation over the keys of one model. A call may be repeated on the next key only while nothing has
    been handed to the caller; the position is kept per model and only ever moves up. */
module KeyFailover {

  datatype Option<T> = None | Some(value: T)

  datatype ProviderError = RateLimited | AuthFailed | Transient | Fatal {
    predicate NextKeyMayHelp() { RateLimited? || AuthFailed? }
    predicate NextModelMayHelp() { RateLimited? || Transient? }
  }

  datatype Chunk = Chunk(reasoning: string, content: string, callsTool: bool) {
    predicate HasContent() { content != "" || callsTool }
    predicate Visible() { reasoning != "" || content != "" }
  }

  /** What a provider does with one streamed request: the chunks it sends, and the error it ends in. */
  datatype Attempt = Attempt(chunks: seq<Chunk>, error: Option<ProviderError>) {
    predicate HasContent() { exists c :: c in chunks && c.HasContent() }

    /** Nothing but reasoning or empty chunks came, so the next key may be asked instead. */
    predicate Skippable() {
      !HasContent() && if error.Some? then error.value.NextKeyMayHelp() else chunks != []
    }

    /** What the caller gets of an attempt that is not repeated: nothing that came before an error
        unless some content did. */
    function Given(): seq<Chunk> {
      if HasContent() || error.None? then chunks else []
    }
  }

  type Responses = nat -> Attempt

  /** No chunk of the attempt has content, and either its key was refused or it just stopped. */
  ghost predicate PassedOver(a: Attempt) {
    && (forall c :: c in a.chunks ==> c.content == "" && !c.callsTool)
    && (a.error == None ==> a.chunks != [])
    && (a.error.Some? ==> a.error.value.RateLimited? || a.error.value.AuthFailed?)
  }

  lemma SkippableIff(a: Attempt)
    ensures a.Skippable() <==> PassedOver(a)
  {
  }

  lemma GivenIff(a: Attempt)
    ensures a.HasContent() <==> exists c :: c in a.chunks && (c.content != "" || c.callsTool)
    ensures a.Given() == if a.error.None? || exists c :: c in a.chunks && (c.content != "" || c.callsTool) then a.chunks else []
  {
    if c :| c in a.chunks && (c.content != "" || c.callsTool) {
      assert c.HasContent();
    }
  }

  /** The key whose attempt is handed to the caller. */
  function Settled(key: nat, usable: nat, responses: Responses): (k: nat)
    ensures key <= k && (k == key || k < usable)
    ensures forall j :: key <= j < k ==> responses(j).Skippable()
    ensures !responses(k).Skippable() || k + 1 >= usable
    decreases usable - key
  {
    if responses(key).Skippable() && key + 1 < usable then Settled(key + 1, usable, responses) else key
  }

  lemma SettledMeans(key: nat, usable: nat, responses: Responses)
    ensures var last := Settled(key, usable, responses);
      && key <= last && (forall k :: key <= k < last ==> PassedOver(responses(k)))
      && (PassedOver(responses(last)) ==> last + 1 >= usable)
  {
    hide PassedOver, Attempt.Skippable;
    var last := Settled(key, usable, responses);
    forall k | key <= k <= last ensures responses(k).Skippable() <==> PassedOver(responses(k)) {
      SkippableIff(responses(k));
    }
  }

  /** One request on each of these keys of a model, in order. */
  function OnKeys(model: string, from: nat, to: nat): (r: seq<(string, nat)>)
    requires from <= to
    ensures |r| == to - from && forall i :: 0 <= i < |r| ==> r[i] == (model, from + i)
  {
    seq(to - from, i requires 0 <= i < to - from => (model, from + i))
  }

  /** The requests of one streamed call: every key from the active one up to where it settles. */
  function Asked(model: string, key: nat, usable: nat, responses: Responses): seq<(string, nat)> {
    OnKeys(model, key, Settled(key, usable, responses) + 1)
  }

  lemma OneMoreKey(before: seq<(string, nat)>, model: string, from: nat, to: nat)
    requires from <= to
    ensures before + OnKeys(model, from, to) + [(model, to)] == before + OnKeys(model, from, to + 1)
  {
    assert OnKeys(model, from, to) + [(model, to)] == OnKeys(model, from, to + 1);
  }

  lemma SettledStep(key: nat, usable: nat, responses: Responses)
    ensures Settled(key, usable, responses)
      == if responses(key).Skippable() && key + 1 < usable then Settled(key + 1, usable, responses) else key
  {
  }

  class LLMClient {
    const keyCount: string -> nat
    const keyLimit: map<string, nat>
    var activeKey: map<string, nat>
    ghost var requests: seq<(string, nat)>

    constructor (keyCount: string -> nat, keyLimit: map<string, nat>)
      ensures Valid() && this.keyCount == keyCount && this.keyLimit == keyLimit && activeKey == map[] && requests == []
    {
      this.keyCount, this.keyLimit, activeKey := keyCount, keyLimit, map[];
      requests := [];
    }

    /** How many of the provider's keys may be used with this model. */
    function UsableKeys(model: string): nat {
      if model in keyLimit && keyLimit[model] < keyCount(model) then keyLimit[model] else keyCount(model)
    }

    /** All of them, but no more than the model's limit. */
    lemma UsableIsLeast(model: string)
      ensures UsableKeys(model) <= keyCount(model) && (model in keyLimit ==> UsableKeys(model) <= keyLimit[model])
      ensures UsableKeys(model) == keyCount(model) || (model in keyLimit && UsableKeys(model) == keyLimit[model])
    {
    }

    function KeyOf(model: string): nat
      reads this
    {
      if model in activeKey then activeKey[model] else 0
    }

    /** Every recorded index is that of a usable key. */
    ghost predicate Valid()
      reads this
    {
      forall m :: m in activeKey ==> activeKey[m] < UsableKeys(m)
    }

    method AdvanceKey(model: string) returns (moved: bool)
      requires Valid()
      modifies this`activeKey
      ensures Valid()
      ensures moved == (old(KeyOf(model)) + 1 < UsableKeys(model))
      ensures activeKey == if moved then old(activeKey)[model := old(KeyOf(model)) + 1] else old(activeKey)
      ensures moved ==> activeKey[model] == 1 + if model in old(activeKey) then old(activeKey)[model] else 0
    {
      if keyCount(model) == 0 { return false; }
      var index := KeyOf(model);
      if index + 1 >= UsableKeys(model) { return false; }
      activeKey := activeKey[model := index + 1];
      return true;
    }

    method ResetKeys(models: seq<string>)
      requires Valid()
      modifies this`activeKey
      ensures Valid() && activeKey == old(activeKey) - (set m | m in models)
    {
      for i := 0 to |models|
        invariant Valid() && activeKey == old(activeKey) - (set m | m in models[..i])
      {
        assert models[..i + 1] == models[..i] + [models[i]];
        activeKey := activeKey - {models[i]};
      }
      assert models[..|models|] == models;
    }

    /** A call that returns all at once: it is made once on each key from the active one up to the first
        that answers or fails for another reason, and on no other key; other models keep their keys. */
    method WithKeyFailover<T>(model: string, call: nat -> Result<T>) returns (r: Result<T>)
      requires Valid()
      modifies this
      ensures Valid()
      ensures old(KeyOf(model)) <= KeyOf(model) && r == call(KeyOf(model))
      ensures forall k :: old(KeyOf(model)) <= k < KeyOf(model) ==>
        call(k).Failed? && (call(k).error.RateLimited? || call(k).error.AuthFailed?)
      ensures r.Failed? && (r.error.RateLimited? || r.error.AuthFailed?) ==> KeyOf(model) + 1 >= UsableKeys(model)
      ensures activeKey - {model} == old(activeKey) - {model}
      ensures requests == old(requests) + OnKeys(model, old(KeyOf(model)), KeyOf(model) + 1)
    {
      ghost var start := KeyOf(model);
      while true
        invariant Valid() && old(KeyOf(model)) <= KeyOf(model)
        invariant forall k :: old(KeyOf(model)) <= k < KeyOf(model) ==> call(k).Failed? && call(k).error.NextKeyMayHelp()
        invariant activeKey - {model} == old(activeKey) - {model}
        invariant requests == old(requests) + OnKeys(model, start, KeyOf(model))
        decreases UsableKeys(model) - KeyOf(model)
      {
        requests := requests + [(model, KeyOf(model))];
        OneMoreKey(old(requests), model, start, KeyOf(model));
        r := call(KeyOf(model));
        if r.Done? { return; }
        if !r.error.NextKeyMayHelp() { return; }
        var moved := AdvanceKey(model);
        if !moved { return; }
      }
    }

    /** A streamed call: whatever the keys do, the caller sees one attempt only: its error and all of its chunks,
        or none of them if it failed before any content came. A key is passed over exactly if nothing with
        content came from it and it was refused or just stopped, as long as there is a next one. Every key
        up to the last is asked once. */
    method StreamWithKeyFailover(model: string, responses: Responses) returns (given: seq<Chunk>, error: Option<ProviderError>)
      requires Valid()
      modifies this
      ensures Valid()
      ensures KeyOf(model) == Settled(old(KeyOf(model)), UsableKeys(model), responses)
      ensures var a := responses(KeyOf(model));
        && error == a.error
        && given == if a.error.None? || exists c :: c in a.chunks && (c.content != "" || c.callsTool) then a.chunks else []
      ensures old(KeyOf(model)) <= KeyOf(model) && forall k :: old(KeyOf(model)) <= k < KeyOf(model) ==> PassedOver(responses(k))
      ensures PassedOver(responses(KeyOf(model))) ==> KeyOf(model) + 1 >= UsableKeys(model)
      ensures activeKey == if KeyOf(model) == old(KeyOf(model)) then old(activeKey) else old(activeKey)[model := KeyOf(model)]
      ensures requests == old(requests) + OnKeys(model, old(KeyOf(model)), KeyOf(model) + 1)
    {
      SettledMeans(KeyOf(model), UsableKeys(model), responses);
      hide Settled, OnKeys, Attempt.Skippable, PassedOver;
      ghost var start := KeyOf(model);
      while true
        invariant Valid() && start <= KeyOf(model)
        invariant Settled(start, UsableKeys(model), responses) == Settled(KeyOf(model), UsableKeys(model), responses)
        invariant activeKey == if KeyOf(model) == start then old(activeKey) else old(activeKey)[model := KeyOf(model)]
        invariant requests == old(requests) + OnKeys(model, start, KeyOf(model))
        decreases UsableKeys(model) - KeyOf(model)
      {
        SettledStep(KeyOf(model), UsableKeys(model), responses);
        OneMoreKey(old(requests), model, start, KeyOf(model));
        var again;
        again, given, error := TryKey(model, responses);
        if !again { return; }
      }
    }

    /** One attempt on the active key: either its chunks and its end go to the caller, or the next key is up. */
    method TryKey(model: string, responses: Responses) returns (again: bool, given: seq<Chunk>, error: Option<ProviderError>)
      requires Valid()
      modifies this
      ensures Valid() && requests == old(requests) + [(model, old(KeyOf(model)))]
      ensures again == (responses(old(KeyOf(model))).Skippable() && old(KeyOf(model)) + 1 < UsableKeys(model))
      ensures activeKey == if again then old(activeKey)[model := old(KeyOf(model)) + 1] else old(activeKey)
      ensures var a := responses(KeyOf(model));
        again || (error == a.error
          && given == if a.error.None? || exists c :: c in a.chunks && (c.content != "" || c.callsTool) then a.chunks else [])
    {
      GivenIff(responses(KeyOf(model)));
      hide Attempt.HasContent;
      requests := requests + [(model, KeyOf(model))];
      var attempt := responses(KeyOf(model));
      var buffer, hasContent := Buffered(attempt);
      if !hasContent && (attempt.error.Some? || buffer != []) {
        if attempt.error.Some? && !attempt.error.value.NextKeyMayHelp() { return false, [], attempt.error; }
        var moved := AdvanceKey(model);
        if moved { return true, [], None; }
        if attempt.error.Some? { return false, [], attempt.error; }
      }
      return false, buffer + attempt.chunks[|buffer|..], attempt.error;
    }

    /** Chunks are held back up to and including the first one with content. */
    method Buffered(attempt: Attempt) returns (buffer: seq<Chunk>, hasContent: bool)
      ensures buffer <= attempt.chunks && hasContent == attempt.HasContent()
      ensures !hasContent ==> buffer == attempt.chunks
      ensures forall i :: 0 <= i < |buffer| - 1 ==> !buffer[i].HasContent()
    {
      buffer, hasContent := [], false;
      for i := 0 to |attempt.chunks|
        invariant buffer == attempt.chunks[..i] && forall k :: 0 <= k < i ==> !attempt.chunks[k].HasContent()
      {
        buffer := buffer + [attempt.chunks[i]];
        if attempt.chunks[i].HasContent() {
          return buffer, true;
        }
      }
    }
  }

  datatype Result<T> = Done(value: T) | Failed(error: ProviderError)
}
