/** Hash-chained receipts of the mutating tool calls: what the chain proves about a list of receipts,
    and what it does not. The hash is any function. */
module Receipts {
  /** A link is the marker of an empty chain or a digest; no digest is the marker. */
  datatype Hash = Genesis | Digest(bits: nat)

  datatype Option<T> = None | Some(value: T)

  datatype Receipt = Receipt(tool: string, argsHash: Hash, resultHash: Hash, prev: Hash)

  const MUTATING_TOOLS: set<string> := {
    "write_file", "create_directory", "delete_file", "move_file", "edit_file",
    "delegate_task", "delegate_build", "apply_patch", "create_files"
  }

  predicate Mutates(tool: string) {
    tool in MUTATING_TOOLS
  }

  /** The hash a receipt at position `i` has to carry. */
  function Expected(rs: seq<Receipt>, i: nat): Hash
    requires i <= |rs|
  {
    if i == 0 then Genesis else rs[i - 1].resultHash
  }

  predicate Chained(rs: seq<Receipt>) {
    forall i :: 0 <= i < |rs| ==> rs[i].prev == Expected(rs, i)
  }

  lemma ChainedIff(rs: seq<Receipt>)
    ensures Chained(rs) <==> forall i :: 0 <= i < |rs| ==> rs[i].prev == if i == 0 then Genesis else rs[i - 1].resultHash
  {
    forall i | 0 <= i < |rs| ensures rs[i].prev == Expected(rs, i) <==> rs[i].prev == if i == 0 then Genesis else rs[i - 1].resultHash {
    }
  }

  predicate Covers(rs: seq<Receipt>, tool: string, argsHash: Hash) {
    exists r :: r in rs && r.tool == tool && r.argsHash == argsHash
  }

  predicate NoRepeats(rs: seq<Receipt>) {
    forall i, j :: 0 <= i < j < |rs| ==> !(rs[i].tool == rs[j].tool && rs[i].argsHash == rs[j].argsHash)
  }

  function Appended(rs: seq<Receipt>, tool: string, argsHash: Hash, resultHash: Hash): seq<Receipt> {
    rs + [Receipt(tool, argsHash, resultHash, Expected(rs, |rs|))]
  }

  lemma AppendedKeepsChain(rs: seq<Receipt>, tool: string, argsHash: Hash, resultHash: Hash)
    requires Chained(rs) && NoRepeats(rs) && !Covers(rs, tool, argsHash)
    ensures Chained(Appended(rs, tool, argsHash, resultHash)) && NoRepeats(Appended(rs, tool, argsHash, resultHash))
  {
    var longer := Appended(rs, tool, argsHash, resultHash);
    forall i | 0 <= i < |rs| ensures longer[i].prev == Expected(longer, i) && longer[i] == rs[i] && longer[i] in rs {
      assert rs[i].prev == Expected(rs, i);
    }
  }

  /** One call as the round loop sees it. */
  datatype ToolCall = ToolCall(tool: string, args: string)

  /** What a tool returned; a failed one leaves no receipt. */
  datatype ToolResult = ToolResult(text: string, failed: bool)

  /** What a tool does when it is called, by its place in the round. */
  type Tools = (nat, ToolCall) -> ToolResult

  /** Whether call `i` of a round is executed: not if it is mutating and already has a receipt. */
  predicate Executes(rs: seq<Receipt>, calls: seq<ToolCall>, tools: Tools, hash: string -> nat, i: nat)
    requires i < |calls|
    decreases i, 2
  {
    !(Mutates(calls[i].tool) && Covers(Recorded(rs, calls, tools, hash, i), calls[i].tool, Digest(hash(calls[i].args))))
  }

  /** The receipts after the first `n` calls of a round. */
  function Recorded(rs: seq<Receipt>, calls: seq<ToolCall>, tools: Tools, hash: string -> nat, n: nat): seq<Receipt>
    requires n <= |calls|
    decreases n, 1
  {
    if n == 0 then rs
    else
      var before, call := Recorded(rs, calls, tools, hash, n - 1), calls[n - 1];
      if Executes(rs, calls, tools, hash, n - 1) && Mutates(call.tool) && !tools(n - 1, call).failed
      then Appended(before, call.tool, Digest(hash(call.args)), Digest(hash(tools(n - 1, call).text)))
      else before
  }

  class Job {
    var receipts: seq<Receipt>
    const hash: string -> nat

    constructor (hash: string -> nat)
      ensures receipts == [] && this.hash == hash && Chained(receipts) && NoRepeats(receipts)
    {
      this.hash, receipts := hash, [];
    }

    method RecordReceipt(tool: string, args: string, result: string)
      modifies this
      ensures receipts == Appended(old(receipts), tool, Digest(hash(args)), Digest(hash(result)))
      ensures var n := |old(receipts)|;
        && |receipts| == n + 1 && receipts[..n] == old(receipts)
        && receipts[n].tool == tool && receipts[n].argsHash == Digest(hash(args)) && receipts[n].resultHash == Digest(hash(result))
        && receipts[n].prev == if n == 0 then Genesis else receipts[n - 1].resultHash
    {
      var prev := if receipts != [] then receipts[|receipts| - 1].resultHash else Genesis;
      receipts := receipts + [Receipt(tool, Digest(hash(args)), Digest(hash(result)), prev)];
    }

    /** A receipt for this very call. */
    predicate Performed(call: ToolCall)
      reads this
    {
      Covers(receipts, call.tool, Digest(hash(call.args)))
    }

    method AlreadyPerformed(call: ToolCall) returns (prior: Option<Receipt>)
      ensures prior.Some? <==> Performed(call)
      ensures prior.Some? <==> exists r :: r in receipts && r.tool == call.tool && r.argsHash == Digest(hash(call.args))
      ensures prior.Some? ==> prior.value in receipts && prior.value.tool == call.tool && prior.value.argsHash == Digest(hash(call.args))
    {
      var target := Digest(hash(call.args));
      for i := 0 to |receipts|
        invariant forall k :: 0 <= k < i ==> !(receipts[k].tool == call.tool && receipts[k].argsHash == target)
      {
        if receipts[i].tool == call.tool && receipts[i].argsHash == target {
          assert receipts[i] in receipts;
          return Some(receipts[i]);
        }
      }
      return None;
    }

    /** One call of a round. A mutating call with a receipt is skipped, any other is executed, and a
        mutating one that did not fail gets its receipt. */
    method RunTool(call: ToolCall, execute: ToolCall -> ToolResult) returns (executed: bool)
      requires Chained(receipts) && NoRepeats(receipts)
      modifies this
      ensures Chained(receipts) && NoRepeats(receipts)
      ensures executed == !(Mutates(call.tool) && old(Performed(call)))
      ensures receipts ==
        if executed && Mutates(call.tool) && !execute(call).failed
        then Appended(old(receipts), call.tool, Digest(hash(call.args)), Digest(hash(execute(call).text)))
        else old(receipts)
      ensures Mutates(call.tool) && (!executed || !execute(call).failed) ==> Performed(call)
      ensures old(receipts) <= receipts
    {
      hide Mutates;
      var prior: Option<Receipt> := None;
      if Mutates(call.tool) {
        prior := AlreadyPerformed(call);
      }
      if prior.Some? { return false; }
      var result := execute(call);
      if Mutates(call.tool) && !result.failed {
        AppendedKeepsChain(receipts, call.tool, Digest(hash(call.args)), Digest(hash(result.text)));
        ghost var n := |receipts|;
        RecordReceipt(call.tool, call.args, result.text);
        assert receipts[n] in receipts;
      }
      return true;
    }

    /** All calls of a round: whatever the tools return, exactly the calls that should be are executed, the
        receipts stay a chain without repeated calls and only grow, and each mutating call that was skipped
        or succeeded is on record. */
    method RunTools(calls: seq<ToolCall>, tools: Tools) returns (executed: seq<bool>)
      requires Chained(receipts) && NoRepeats(receipts)
      modifies this
      ensures receipts == Recorded(old(receipts), calls, tools, hash, |calls|)
      ensures |executed| == |calls| && forall i :: 0 <= i < |calls| ==> executed[i] == Executes(old(receipts), calls, tools, hash, i)
      ensures Chained(receipts) && NoRepeats(receipts) && old(receipts) <= receipts
      ensures forall i :: 0 <= i < |calls| && Mutates(calls[i].tool) && (!executed[i] || !tools(i, calls[i]).failed) ==>
        Performed(calls[i])
    {
      hide Mutates, Chained, NoRepeats, Performed, Appended;
      executed := [];
      for i := 0 to |calls|
        invariant receipts == Recorded(old(receipts), calls, tools, hash, i)
        invariant |executed| == i && forall k :: 0 <= k < i ==> executed[k] == Executes(old(receipts), calls, tools, hash, k)
        invariant Chained(receipts) && NoRepeats(receipts) && old(receipts) <= receipts
        invariant forall k :: 0 <= k < i && Mutates(calls[k].tool) && (!executed[k] || !tools(k, calls[k]).failed) ==>
          Performed(calls[k])
      {
        label Before:
        PerformedMeans(calls[i]);
        var ran := RunTool(calls[i], c => tools(i, c));
        assert ran == Executes(old(receipts), calls, tools, hash, i);
        forall k | 0 <= k < i && old@Before(Performed(calls[k])) ensures Performed(calls[k]) {
          StillPerformed@Before(calls[k]);
        }
        executed := executed + [ran];
      }
    }

    lemma PerformedMeans(call: ToolCall)
      ensures Performed(call) == Covers(receipts, call.tool, Digest(hash(call.args)))
    {
    }

    twostate lemma StillPerformed(call: ToolCall)
      requires old(Performed(call)) && old(receipts) <= receipts
      ensures Performed(call)
    {
      var r :| r in old(receipts) && r.tool == call.tool && r.argsHash == Digest(hash(call.args));
      assert r in receipts;
    }

    method VerifyChain() returns (ok: bool)
      ensures ok <==> Chained(receipts)
      ensures ok <==> forall i :: 0 <= i < |receipts| ==>
        receipts[i].prev == if i == 0 then Genesis else receipts[i - 1].resultHash
    {
      ChainedIff(receipts);
      var expected := Genesis;
      for i := 0 to |receipts|
        invariant expected == Expected(receipts, i) && forall k :: 0 <= k < i ==> receipts[k].prev == Expected(receipts, k)
      {
        if receipts[i].prev != expected { return false; }
        expected := receipts[i].resultHash;
      }
      return true;
    }
  }

  // ---- what a verified chain means ----

  ghost predicate DistinctResults(rs: seq<Receipt>) {
    && (forall i :: 0 <= i < |rs| ==> rs[i].resultHash != Genesis)
    && forall i, j :: 0 <= i < j < |rs| ==> rs[i].resultHash != rs[j].resultHash
  }

  predicate BuiltFrom(list: seq<Receipt>, chain: seq<Receipt>) {
    forall r :: r in list ==> r in chain
  }

  /** If no two calls had the same result, a list made of a job's receipts in any order, with any left out
      or repeated, verifies exactly when it is an unaltered beginning of the job's chain. */
  lemma VerifiesIffPrefix(chain: seq<Receipt>, list: seq<Receipt>)
    requires Chained(chain) && DistinctResults(chain) && BuiltFrom(list, chain)
    ensures Chained(list) <==> list <= chain
  {
    if Chained(list) {
      ChainedIsPrefix(chain, list, |list|);
    }
    if list <= chain {
      forall i | 0 <= i < |list| ensures list[i].prev == Expected(list, i) {
        assert chain[i].prev == Expected(chain, i);
      }
    }
  }

  /** In such a chain a receipt's link says where it belongs. */
  lemma LinkDetermines(chain: seq<Receipt>, j: nat, k: nat)
    requires Chained(chain) && DistinctResults(chain) && j < |chain| && k <= |chain| && chain[j].prev == Expected(chain, k)
    ensures j == k
  {
    assert chain[j].prev == Expected(chain, j);
  }

  lemma NextOfPrefix(chain: seq<Receipt>, list: seq<Receipt>, n: nat)
    requires Chained(chain) && DistinctResults(chain) && BuiltFrom(list, chain) && Chained(list)
    requires n < |list| && n <= |chain| && forall k :: 0 <= k < n ==> list[k] == chain[k]
    ensures n < |chain| && list[n] == chain[n]
  {
    var r := list[n];
    assert r in list && r.prev == Expected(list, n);
    var j :| 0 <= j < |chain| && chain[j] == r;
    hide Chained, DistinctResults, BuiltFrom;
    assert n > 0 ==> list[n - 1] == chain[n - 1];
    LinkDetermines(chain, j, n);
  }

  lemma {:induction false} ChainedIsPrefix(chain: seq<Receipt>, list: seq<Receipt>, n: nat)
    requires Chained(chain) && DistinctResults(chain) && BuiltFrom(list, chain) && Chained(list) && n <= |list|
    ensures n <= |chain| && forall k :: 0 <= k < n ==> list[k] == chain[k]
    decreases n
  {
    hide Chained, DistinctResults, BuiltFrom;
    if n > 0 {
      ChainedIsPrefix(chain, list, n - 1);
      NextOfPrefix(chain, list, n - 1);
    }
  }

  // ---- what it does not mean ----

  /** Cutting receipts out of the middle goes unnoticed exactly when the results on both sides of the
      cut's start and end are the same text. */
  lemma DeletionNoticedIff(chain: seq<Receipt>, i: nat, j: nat)
    requires Chained(chain) && i < j < |chain| - 1
    ensures Chained(Cut(chain, i, j)) <==> chain[i].resultHash == chain[j].resultHash
  {
    var list := Cut(chain, i, j);
    assert chain[j + 1].prev == Expected(chain, j + 1);
    assert list[i + 1].prev == chain[j].resultHash && Expected(list, i + 1) == chain[i].resultHash;
    forall k | 0 <= k < |list| && k != i + 1 ensures list[k].prev == Expected(list, k) {
      var m := if k <= i then k else k + j - i;
      assert chain[m].prev == Expected(chain, m);
    }
  }

  /** The chain without the receipts after position `i` up to and including position `j`. */
  function Cut(chain: seq<Receipt>, i: nat, j: nat): (list: seq<Receipt>)
    requires i < j < |chain|
    ensures |list| == |chain| - (j - i)
    ensures forall k :: 0 <= k < |list| ==> list[k] == chain[if k <= i then k else k + j - i]
  {
    chain[..i + 1] + chain[j + 1..]
  }

  /** Dropping receipts from the end is never noticed. */
  lemma TruncationUnnoticed(chain: seq<Receipt>, n: nat)
    requires Chained(chain) && n <= |chain|
    ensures Chained(chain[..n])
  {
    forall i | 0 <= i < n ensures chain[..n][i].prev == Expected(chain[..n], i) {
      assert chain[i].prev == Expected(chain, i);
    }
  }

  /** Neither is a change to which tool was called or with what; only a changed result is, and only if
      something follows it. */
  lemma EditNoticedIff(chain: seq<Receipt>, i: nat, edited: Receipt)
    requires Chained(chain) && i < |chain| && edited.prev == chain[i].prev
    ensures Chained(chain[i := edited]) <==> edited.resultHash == chain[i].resultHash || i == |chain| - 1
  {
    var list := chain[i := edited];
    forall k | 0 <= k < |list| && k != i + 1 ensures list[k].prev == Expected(list, k) {
      assert chain[k].prev == Expected(chain, k);
    }
    if i + 1 < |chain| {
      assert chain[i + 1].prev == Expected(chain, i + 1) && list[i + 1] == chain[i + 1];
    }
  }

  // ---- which calls are skipped ----

  ghost predicate Injective(hash: string -> nat) {
    forall a, b :: hash(a) == hash(b) ==> a == b
  }

  /** Call `k` was this call, and it was executed and succeeded. */
  predicate Succeeded(calls: seq<ToolCall>, tools: Tools, hash: string -> nat, k: nat, call: ToolCall)
    requires k < |calls|
  {
    calls[k] == call && Executes([], calls, tools, hash, k) && !tools(k, call).failed
  }

  lemma AppendedCovers(rs: seq<Receipt>, tool: string, argsHash: Hash, resultHash: Hash, tool': string, argsHash': Hash)
    ensures Covers(Appended(rs, tool, argsHash, resultHash), tool', argsHash') <==>
      Covers(rs, tool', argsHash') || (tool == tool' && argsHash == argsHash')
  {
    var longer := Appended(rs, tool, argsHash, resultHash);
    assert longer[|rs|] in longer;
    if r :| r in rs && r.tool == tool' && r.argsHash == argsHash' {
      assert r in longer;
    }
  }

  lemma {:induction false} CoveredIff(calls: seq<ToolCall>, tools: Tools, hash: string -> nat, n: nat, call: ToolCall)
    requires n <= |calls| && Injective(hash) && Mutates(call.tool)
    ensures Covers(Recorded([], calls, tools, hash, n), call.tool, Digest(hash(call.args))) <==>
      exists k :: 0 <= k < n && Succeeded(calls, tools, hash, k, call)
  {
    hide Mutates, Covers, Appended;
    if n == 0 {
      assert !Covers([], call.tool, Digest(hash(call.args))) by { NothingCovered(call); }
    } else {
      CoveredIff(calls, tools, hash, n - 1, call);
      var last, before := calls[n - 1], Recorded([], calls, tools, hash, n - 1);
      AppendedCovers(before, last.tool, Digest(hash(last.args)), Digest(hash(tools(n - 1, last).text)), call.tool, Digest(hash(call.args)));
      assert hash(last.args) == hash(call.args) ==> last.args == call.args;
      assert Succeeded(calls, tools, hash, n - 1, call) ==> exists k :: 0 <= k < n && Succeeded(calls, tools, hash, k, call);
    }
  }

  lemma NothingCovered(call: ToolCall)
    ensures !Covers([], call.tool, Digest(0)) && forall h :: !Covers([], call.tool, h)
  {
  }

  /** The tools whose calls leave receipts. */
  lemma MutatesIff(tool: string)
    ensures Mutates(tool) <==>
      || tool == "write_file" || tool == "edit_file" || tool == "create_files" || tool == "apply_patch"
      || tool == "create_directory" || tool == "delete_file" || tool == "move_file"
      || tool == "delegate_task" || tool == "delegate_build"
  {
  }

  /** When arguments have different hashes, a call is executed exactly if it changes nothing or the very same
      call has not been executed with success before. */
  lemma ExecutedIffNew(calls: seq<ToolCall>, tools: Tools, hash: string -> nat, i: nat)
    requires i < |calls| && Injective(hash)
    ensures Executes([], calls, tools, hash, i) <==>
      !Mutates(calls[i].tool) || !exists k :: 0 <= k < i && Succeeded(calls, tools, hash, k, calls[i])
  {
    hide Mutates, Covers, Succeeded;
    if Mutates(calls[i].tool) {
      CoveredIff(calls, tools, hash, i, calls[i]);
    }
  }

  /** Receipts are kept from round to round, so a job's rounds together are like one. */
  lemma {:induction false} RoundsAreOne(rs: seq<Receipt>, a: seq<ToolCall>, b: seq<ToolCall>, tools: Tools, hash: string -> nat, n: nat)
    requires n <= |b|
    ensures Recorded(rs, a + b, tools, hash, |a| + n)
      == Recorded(Recorded(rs, a, tools, hash, |a|), b, (i: nat, call: ToolCall) => tools(|a| + i, call), hash, n)
  {
    hide Mutates, Covers, Appended;
    if n == 0 {
      SameBeginning(rs, a, b, tools, hash, |a|);
    } else {
      RoundsAreOne(rs, a, b, tools, hash, n - 1);
      assert (a + b)[|a| + n - 1] == b[n - 1];
    }
  }

  lemma {:induction false} SameBeginning(rs: seq<Receipt>, a: seq<ToolCall>, b: seq<ToolCall>, tools: Tools, hash: string -> nat, n: nat)
    requires n <= |a|
    ensures Recorded(rs, a + b, tools, hash, n) == Recorded(rs, a, tools, hash, n)
  {
    hide Mutates, Covers, Appended;
    if n > 0 {
      SameBeginning(rs, a, b, tools, hash, n - 1);
      assert (a + b)[n - 1] == a[n - 1];
    }
  }

  // ---- what skipping does to the files ----

  type Files = map<string, string>

  /** What call `i` does to the files there are when it is executed. */
  type Action = (nat, ToolCall, Files) -> Files

  /** The files after the first `n` calls, if none were skipped. */
  function RunAll(calls: seq<ToolCall>, act: Action, files: Files, n: nat): Files
    requires n <= |calls|
  {
    if n == 0 then files else act(n - 1, calls[n - 1], RunAll(calls, act, files, n - 1))
  }

  /** The files after the first `n` calls as they are run. */
  function RunUnskipped(rs: seq<Receipt>, calls: seq<ToolCall>, tools: Tools, hash: string -> nat, act: Action, files: Files, n: nat): Files
    requires n <= |calls|
  {
    if n == 0 then files
    else
      var before := RunUnskipped(rs, calls, tools, hash, act, files, n - 1);
      if Executes(rs, calls, tools, hash, n - 1) then act(n - 1, calls[n - 1], before) else before
  }

  /** Executing call `i` where it is skipped would change nothing. */
  predicate Idle(rs: seq<Receipt>, calls: seq<ToolCall>, tools: Tools, hash: string -> nat, act: Action, files: Files, i: nat)
    requires i < |calls|
  {
    var now := RunUnskipped(rs, calls, tools, hash, act, files, i);
    act(i, calls[i], now) == now
  }

  ghost predicate NeverShows(rs: seq<Receipt>, calls: seq<ToolCall>, tools: Tools, hash: string -> nat, act: Action, files: Files, n: nat)
    requires n <= |calls|
  {
    forall m :: 0 <= m <= n ==> RunUnskipped(rs, calls, tools, hash, act, files, m) == RunAll(calls, act, files, m)
  }

  ghost predicate OnlyIdleSkipped(rs: seq<Receipt>, calls: seq<ToolCall>, tools: Tools, hash: string -> nat, act: Action, files: Files, n: nat)
    requires n <= |calls|
  {
    forall i :: 0 <= i < n && !Executes(rs, calls, tools, hash, i) ==> Idle(rs, calls, tools, hash, act, files, i)
  }

  /** For any tools whatever, edits and moves included: skipping never shows in the files, at no point of the
      run, if and only if every skipped call would have changed nothing where it is skipped. */
  lemma {:induction false} SkippingIsInvisibleIff(rs: seq<Receipt>, calls: seq<ToolCall>, tools: Tools, hash: string -> nat, act: Action, files: Files, n: nat)
    requires n <= |calls|
    ensures NeverShows(rs, calls, tools, hash, act, files, n) <==> OnlyIdleSkipped(rs, calls, tools, hash, act, files, n)
  {
    hide Executes;
    if n > 0 {
      SkippingIsInvisibleIff(rs, calls, tools, hash, act, files, n - 1);
      var i := n - 1;
      var run, all := RunUnskipped(rs, calls, tools, hash, act, files, i), RunAll(calls, act, files, i);
      var run', all' := RunUnskipped(rs, calls, tools, hash, act, files, n), RunAll(calls, act, files, n);
      assert run == all ==> (run' == all' <==> Executes(rs, calls, tools, hash, i) || Idle(rs, calls, tools, hash, act, files, i));
      hide RunUnskipped, RunAll, Idle;
      assert NeverShows(rs, calls, tools, hash, act, files, n) <==> NeverShows(rs, calls, tools, hash, act, files, i) && run' == all';
      assert OnlyIdleSkipped(rs, calls, tools, hash, act, files, n) <==>
        OnlyIdleSkipped(rs, calls, tools, hash, act, files, i) && (Executes(rs, calls, tools, hash, i) || Idle(rs, calls, tools, hash, act, files, i));
    }
  }

  // ---- calls whose effect does not depend on the files ----

  /** The paths a call determines, each with its content afterwards or, for a deletion, without. */
  type Effect = map<string, Option<string>>

  function Applied(files: Files, e: Effect): Files {
    map p | p in files.Keys + e.Keys && (p in e ==> e[p].Some?) :: if p in e then e[p].value else files[p]
  }

  function ContentAt(files: Files, path: string): Option<string> {
    if path in files then Some(files[path]) else None
  }

  lemma SameFiles(a: Files, b: Files)
    requires forall p :: ContentAt(a, p) == ContentAt(b, p)
    ensures a == b
  {
    assert forall p :: p in a <==> ContentAt(a, p).Some?;
    assert forall p :: p in b <==> ContentAt(b, p).Some?;
    assert forall p :: p in a ==> ContentAt(a, p).value == a[p] && ContentAt(b, p).value == b[p];
  }

  /** A call that fails leaves the files alone; any other has the effect of its tool and arguments. */
  function Effective(tools: Tools, effect: ToolCall -> Effect, i: nat, call: ToolCall): Effect {
    if tools(i, call).failed then map[] else effect(call)
  }

  function Acting(tools: Tools, effect: ToolCall -> Effect): Action {
    (i: nat, call: ToolCall, files: Files) => Applied(files, Effective(tools, effect, i, call))
  }

  /** The last of the first `n` calls that determines this path, or -1; of those executed, if `run`. */
  function LastOn(run: bool, calls: seq<ToolCall>, tools: Tools, hash: string -> nat, effect: ToolCall -> Effect, path: string, n: nat): (i: int)
    requires n <= |calls|
    ensures -1 <= i < n && (i >= 0 ==> path in Effective(tools, effect, i, calls[i]) && (run ==> Executes([], calls, tools, hash, i)))
    ensures forall k :: i < k < n && path in Effective(tools, effect, k, calls[k]) ==> run && !Executes([], calls, tools, hash, k)
  {
    if n == 0 then -1
    else if path in Effective(tools, effect, n - 1, calls[n - 1]) && (run ==> Executes([], calls, tools, hash, n - 1)) then n - 1
    else LastOn(run, calls, tools, hash, effect, path, n - 1)
  }

  /** What call `i` leaves on a path, or what was there if there is no such call. */
  function Left(calls: seq<ToolCall>, tools: Tools, effect: ToolCall -> Effect, files: Files, path: string, i: int): Option<string>
    requires i < |calls| && (i >= 0 ==> path in Effective(tools, effect, i, calls[i]))
  {
    if i < 0 then ContentAt(files, path) else Effective(tools, effect, i, calls[i])[path]
  }

  lemma {:induction false} LastDecides(calls: seq<ToolCall>, tools: Tools, hash: string -> nat, effect: ToolCall -> Effect, files: Files, path: string, n: nat)
    requires n <= |calls|
    ensures ContentAt(RunAll(calls, Acting(tools, effect), files, n), path)
      == Left(calls, tools, effect, files, path, LastOn(false, calls, tools, hash, effect, path, n))
    ensures ContentAt(RunUnskipped([], calls, tools, hash, Acting(tools, effect), files, n), path)
      == Left(calls, tools, effect, files, path, LastOn(true, calls, tools, hash, effect, path, n))
  {
    hide Executes, Effective, Applied, ContentAt, Acting;
    if n > 0 {
      LastDecides(calls, tools, hash, effect, files, path, n - 1);
      ActingAt(tools, effect, n - 1, calls[n - 1], RunAll(calls, Acting(tools, effect), files, n - 1), path);
      ActingAt(tools, effect, n - 1, calls[n - 1], RunUnskipped([], calls, tools, hash, Acting(tools, effect), files, n - 1), path);
    }
  }

  lemma ActingAt(tools: Tools, effect: ToolCall -> Effect, i: nat, call: ToolCall, files: Files, path: string)
    ensures var e := Effective(tools, effect, i, call);
      ContentAt(Acting(tools, effect)(i, call, files), path) == if path in e then e[path] else ContentAt(files, path)
  {
    hide Effective;
  }

  /** A skipped call repeats an executed one, so a path that some call determines is determined by an
      executed one. */
  lemma SomeExecutedOn(calls: seq<ToolCall>, tools: Tools, hash: string -> nat, effect: ToolCall -> Effect, path: string)
    requires Injective(hash)
    ensures LastOn(false, calls, tools, hash, effect, path, |calls|) >= 0 ==> LastOn(true, calls, tools, hash, effect, path, |calls|) >= 0
  {
    var i := LastOn(false, calls, tools, hash, effect, path, |calls|);
    hide Executes;
    if i >= 0 && !Executes([], calls, tools, hash, i) {
      ExecutedIffNew(calls, tools, hash, i);
      var k :| 0 <= k < i && Succeeded(calls, tools, hash, k, calls[i]);
      assert path in Effective(tools, effect, k, calls[k]);
    }
  }

  /** The last call that determines this path leaves the content that the last executed one leaves. */
  ghost predicate EndsAlike(calls: seq<ToolCall>, tools: Tools, hash: string -> nat, effect: ToolCall -> Effect, path: string) {
    var all, run := LastOn(false, calls, tools, hash, effect, path, |calls|), LastOn(true, calls, tools, hash, effect, path, |calls|);
    all >= 0 ==> run >= 0 && Effective(tools, effect, all, calls[all])[path] == Effective(tools, effect, run, calls[run])[path]
  }

  /** In the end the files are as if nothing had been skipped, if and only if on every path the last call
      leaves the content that the last executed one leaves. */
  lemma SkippingIsHarmlessIff(calls: seq<ToolCall>, tools: Tools, hash: string -> nat, effect: ToolCall -> Effect, files: Files)
    requires Injective(hash)
    ensures RunUnskipped([], calls, tools, hash, Acting(tools, effect), files, |calls|) == RunAll(calls, Acting(tools, effect), files, |calls|)
      <==> forall path :: EndsAlike(calls, tools, hash, effect, path)
  {
    hide Executes, RunAll, RunUnskipped, LastOn, Effective, Acting;
    var run, all := RunUnskipped([], calls, tools, hash, Acting(tools, effect), files, |calls|), RunAll(calls, Acting(tools, effect), files, |calls|);
    forall path ensures EndsAlike(calls, tools, hash, effect, path) <==> ContentAt(run, path) == ContentAt(all, path) {
      LastDecides(calls, tools, hash, effect, files, path, |calls|);
      SomeExecutedOn(calls, tools, hash, effect, path);
    }
    if forall path :: EndsAlike(calls, tools, hash, effect, path) {
      SameFiles(run, all);
    }
  }

  lemma ThirdIsSkipped(w: ToolCall, v: ToolCall, tools: Tools, hash: string -> nat)
    requires w != v && Mutates(w.tool) && Mutates(v.tool) && Injective(hash)
    requires !tools(0, w).failed && !tools(1, v).failed
    ensures var calls := [w, v, w];
      Executes([], calls, tools, hash, 0) && Executes([], calls, tools, hash, 1) && !Executes([], calls, tools, hash, 2)
  {
    hide Mutates, Executes;
    var calls := [w, v, w];
    ExecutedIffNew(calls, tools, hash, 0);
    ExecutedIffNew(calls, tools, hash, 1);
    assert Succeeded(calls, tools, hash, 0, calls[2]);
    ExecutedIffNew(calls, tools, hash, 2);
  }

  /** A call, a different one, and the first again, all of them successful: the third is skipped, which shows
      exactly if the second left other content on a path of the first. */
  lemma RestoringIsSkipped(w: ToolCall, v: ToolCall, tools: Tools, hash: string -> nat, effect: ToolCall -> Effect, files: Files)
    requires w != v && Mutates(w.tool) && Mutates(v.tool) && Injective(hash)
    requires !tools(0, w).failed && !tools(1, v).failed && !tools(2, w).failed
    ensures var run := RunUnskipped([], [w, v, w], tools, hash, Acting(tools, effect), files, 3);
      var all := RunAll([w, v, w], Acting(tools, effect), files, 3);
      && run == Applied(Applied(files, effect(w)), effect(v))
      && all == Applied(run, effect(w))
      && (run == all <==> forall p :: p in effect(w) && p in effect(v) ==> effect(w)[p] == effect(v)[p])
  {
    ThirdIsSkipped(w, v, tools, hash);
    var calls, act := [w, v, w], Acting(tools, effect);
    NextFiles(calls, tools, hash, act, files, 0);
    NextFiles(calls, tools, hash, act, files, 1);
    NextFiles(calls, tools, hash, act, files, 2);
    NoCallYet(calls, tools, hash, act, files);
    hide Executes, Applied, RunAll, RunUnskipped;
    ActingMeans(tools, effect, 0, w, files);
    ActingMeans(tools, effect, 1, v, Applied(files, effect(w)));
    ActingMeans(tools, effect, 2, w, Applied(Applied(files, effect(w)), effect(v)));
    hide Acting;
    AppliedAgain(files, effect(w), effect(v));
  }

  lemma ActingMeans(tools: Tools, effect: ToolCall -> Effect, i: nat, call: ToolCall, files: Files)
    requires !tools(i, call).failed
    ensures Acting(tools, effect)(i, call, files) == Applied(files, effect(call))
  {
  }

  lemma NextFiles(calls: seq<ToolCall>, tools: Tools, hash: string -> nat, act: Action, files: Files, n: nat)
    requires n < |calls|
    ensures RunAll(calls, act, files, n + 1) == act(n, calls[n], RunAll(calls, act, files, n))
    ensures var before := RunUnskipped([], calls, tools, hash, act, files, n);
      RunUnskipped([], calls, tools, hash, act, files, n + 1) == if Executes([], calls, tools, hash, n) then act(n, calls[n], before) else before
  {
  }

  lemma NoCallYet(calls: seq<ToolCall>, tools: Tools, hash: string -> nat, act: Action, files: Files)
    ensures RunAll(calls, act, files, 0) == RunUnskipped([], calls, tools, hash, act, files, 0) == files
  {
  }

  lemma AppliedAgain(files: Files, w: Effect, v: Effect)
    ensures var now := Applied(Applied(files, w), v);
      now == Applied(now, w) <==> forall p :: p in w && p in v ==> w[p] == v[p]
  {
    var now := Applied(Applied(files, w), v);
    forall p | p in w && p in v && w[p] != v[p] ensures ContentAt(now, p) != ContentAt(Applied(now, w), p) {
    }
    if forall p :: p in w && p in v ==> w[p] == v[p] {
      SameFiles(now, Applied(now, w));
    }
  }

  /** So a file that is written, deleted and written again with the same content stays deleted, and one that
      is written, overwritten and written again with the first content keeps the second. */
  lemma RewrittenIsLost(w: ToolCall, v: ToolCall, tools: Tools, hash: string -> nat, effect: ToolCall -> Effect, files: Files,
                        path: string, content: string, other: Option<string>)
    requires w != v && w.tool == "write_file" && Mutates(v.tool) && Injective(hash) && other != Some(content)
    requires !tools(0, w).failed && !tools(1, v).failed && !tools(2, w).failed
    requires effect(w) == map[path := Some(content)] && effect(v) == map[path := other]
    ensures ContentAt(RunUnskipped([], [w, v, w], tools, hash, Acting(tools, effect), files, 3), path) == other
    ensures ContentAt(RunAll([w, v, w], Acting(tools, effect), files, 3), path) == Some(content)
  {
    hide RunAll, RunUnskipped, Acting;
    RestoringIsSkipped(w, v, tools, hash, effect, files);
  }
}
