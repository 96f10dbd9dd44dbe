/** The control of one job: `_loop` runs the rounds its budget allows, `_run` re-enters it while the
    reason it stopped is mechanical and the automatic continuations last. */
module JobLoop {
  import opened PlanModel
  import opened PlanPotential
  import opened JobModel
  import opened JobRuns

  /** What each round, in order of execution, will meet. */
  type Oracle = nat -> RoundInput

  /** The state `_loop` or `_run` left the job in, and what happened on the way. */
  datatype Trace = Stopped(s: JobRec, events: seq<Event>)

  function AutoCap(contract: Contract): nat {
    if contract.intent.Investigative() && contract.requiredTools == [] then MAX_AUTO_CONTINUES_INVESTIGATIVE
    else MAX_AUTO_CONTINUES
  }

  /** The plan is built once; building it also sizes the round budget. */
  function Planned(s: JobRec, built: PlanRec): JobRec {
    if s.planned then s
    else
      s.(planned := true, saved := built,
         roundBudget := if built.tasks != [] && 4 * |built.tasks| > s.roundBudget then 4 * |built.tasks| else s.roundBudget)
  }

  function Rounds(s: JobRec, contract: Contract, round: int, limit: int, inputs: Oracle, k: nat): (r: Trace)
    decreases limit - round
  {
    if round >= limit then Stopped(s.(status := Errored, reason := OutOfRounds), [Exhaust])
    else
      var s' := Round(s, contract, round, inputs(k));
      var e := RoundAt(round, inputs(k));
      if !s'.status.Running? then Stopped(s', [e])
      else
        var rest := Rounds(s', contract, round + 1, limit, inputs, k + 1);
        Stopped(rest.s, [e] + rest.events)
  }

  function Loop(s: JobRec, contract: Contract, built: PlanRec, resuming: bool, inputs: Oracle, k: nat): Trace {
    var s1 := Entered(Planned(s, built));
    Rounds(s1, contract, if resuming then s1.round + 1 else 0, s1.roundBudget, inputs, k)
  }

  predicate AutoContinues(s: JobRec, contract: Contract) {
    CanResume(s) && s.autoContinues < AutoCap(contract)
  }

  function AutoContinued(s: JobRec): JobRec {
    var s1 := s.(autoContinues := s.autoContinues + 1, status := Running, reason := NoReason);
    if s.reason.OutOfRounds? then s1.(roundBudget := s.roundBudget + MAX_ROUNDS) else s1.(stallRecoveries := 0)
  }

  function RunFrom(s: JobRec, contract: Contract, built: PlanRec, resuming: bool, inputs: Oracle, k: nat): Trace
    decreases AutoCap(contract) - s.autoContinues
  {
    var first := Loop(s, contract, built, resuming, inputs, k);
    LoopKeepsCounters(s, contract, built, resuming, inputs, k);
    if !AutoContinues(first.s, contract) then first
    else
      var rest := RunFrom(AutoContinued(first.s), contract, built, true, inputs, k + |first.events|);
      Stopped(rest.s, first.events + [Resume(true)] + rest.events)
  }

  // ---- rounds leave the counters that bound the run alone ----

  ghost predicate SameCounters(s: JobRec, s': JobRec) {
    s'.autoContinues == s.autoContinues && s'.roundBudget == s.roundBudget && s'.planned == s.planned
  }

  lemma TopKeepsCounters(s: JobRec, round: int, input: RoundInput)
    ensures var top := AtTop(s, round, input);
      SameCounters(s, top.s) && (top.Go? || !top.s.status.Done? ==> top.s.round == round)
  {
    hide Current, Intervene, Blocks, AnyFailed;
  }

  lemma BodyKeepsCounters(s: JobRec, contract: Contract, active: int, o: Outcome)
    requires active < |s.plan.tasks|
    ensures var s' := AfterRound(s, contract, active, o); SameCounters(s, s') && s'.round == s.round
  {
    hide Claimed, TryAdvance, ContractMet, Blocks;
  }

  lemma RoundKeepsCounters(s: JobRec, contract: Contract, round: int, input: RoundInput)
    ensures var s' := Round(s, contract, round, input);
      SameCounters(s, s') && (!s'.status.Done? ==> s'.round == round)
  {
    hide AtTop, AfterRound;
    TopKeepsCounters(s, round, input);
    var top := AtTop(s, round, input);
    if top.Go? {
      BodyKeepsCounters(top.s, contract, top.active, input.outcome);
    }
  }

  lemma {:induction false} RoundsKeepCounters(s: JobRec, contract: Contract, round: int, limit: int, inputs: Oracle, k: nat)
    ensures var r := Rounds(s, contract, round, limit, inputs, k);
      r.s.autoContinues == s.autoContinues && r.s.roundBudget == s.roundBudget && r.s.planned == s.planned
    decreases limit - round
  {
    hide Round;
    if round < limit {
      RoundKeepsCounters(s, contract, round, inputs(k));
      RoundsKeepCounters(Round(s, contract, round, inputs(k)), contract, round + 1, limit, inputs, k + 1);
    }
  }

  lemma LoopKeepsCounters(s: JobRec, contract: Contract, built: PlanRec, resuming: bool, inputs: Oracle, k: nat)
    ensures var s1 := Planned(s, built); var r := Loop(s, contract, built, resuming, inputs, k);
      r.s.autoContinues == s.autoContinues && r.s.roundBudget == s1.roundBudget && r.s.planned
  {
    hide Rounds;
    var s1 := Entered(Planned(s, built));
    RoundsKeepCounters(s1, contract, if resuming then s1.round + 1 else 0, s1.roundBudget, inputs, k);
  }

  // ---- the run is a run of JobRuns ----

  lemma {:induction false} AfterConcat(s: JobRec, contract: Contract, a: seq<Event>, b: seq<Event>)
    ensures After(s, contract, a + b) == After(After(s, contract, a), contract, b)
    decreases |a|
  {
    hide Apply;
    if a == [] {
      assert a + b == b;
    } else {
      assert (a + b)[1..] == a[1..] + b;
      AfterConcat(Apply(s, contract, a[0]), contract, a[1..], b);
    }
  }

  lemma {:induction false} RoundsAreEvents(s: JobRec, contract: Contract, round: int, limit: int, inputs: Oracle, k: nat)
    requires s.status.Running?
    ensures var r := Rounds(s, contract, round, limit, inputs, k);
      After(s, contract, r.events) == r.s && !r.s.status.Running?
    decreases limit - round
  {
    hide Round;
    var r := Rounds(s, contract, round, limit, inputs, k);
    if round >= limit {
      assert After(s, contract, [Exhaust]) == Apply(s, contract, Exhaust);
    } else {
      var s1 := Round(s, contract, round, inputs(k));
      if s1.status.Running? {
        RoundsAreEvents(s1, contract, round + 1, limit, inputs, k + 1);
        assert r.events[1..] == Rounds(s1, contract, round + 1, limit, inputs, k + 1).events;
      } else {
        assert r.events[1..] == [];
      }
    }
  }

  /** Everything proved about event sequences holds of `_run`. */
  lemma {:induction false} RunIsEvents(s: JobRec, contract: Contract, built: PlanRec, resuming: bool, inputs: Oracle, k: nat)
    requires s.status.Running?
    ensures var r := RunFrom(s, contract, built, resuming, inputs, k);
      After(Entered(Planned(s, built)), contract, r.events) == r.s && !r.s.status.Running? && !AutoContinues(r.s, contract)
    decreases AutoCap(contract) - s.autoContinues
  {
    hide Rounds, Apply;
    var s1 := Entered(Planned(s, built));
    RoundsAreEvents(s1, contract, if resuming then s1.round + 1 else 0, s1.roundBudget, inputs, k);
    LoopKeepsCounters(s, contract, built, resuming, inputs, k);
    var first := Loop(s, contract, built, resuming, inputs, k);
    if AutoContinues(first.s, contract) {
      var next := AutoContinued(first.s);
      ResumeIsContinue(first.s, contract);
      RunIsEvents(next, contract, built, true, inputs, k + |first.events|);
      var rest := RunFrom(next, contract, built, true, inputs, k + |first.events|);
      AfterConcat(s1, contract, first.events, [Resume(true)] + rest.events);
      assert first.events + [Resume(true)] + rest.events == first.events + ([Resume(true)] + rest.events);
      assert ([Resume(true)] + rest.events)[1..] == rest.events;
    }
  }

  lemma ResumeIsContinue(s: JobRec, contract: Contract)
    requires AutoContinues(s, contract)
    ensures Apply(s, contract, Resume(true)) == Entered(AutoContinued(s))
  {
  }

  // ---- rounds are numbered upwards and are finitely many ----

  function RoundNumbers(events: seq<Event>): seq<int> {
    if events == [] then []
    else (if events[0].RoundAt? then [events[0].round] else []) + RoundNumbers(events[1..])
  }

  ghost predicate Ascending(ns: seq<int>, lo: int, hi: int) {
    && (forall i :: 0 <= i < |ns| ==> lo <= ns[i] < hi)
    && (forall i, j :: 0 <= i < j < |ns| ==> ns[i] < ns[j])
  }

  lemma {:induction false} AscendingLength(ns: seq<int>, lo: int, hi: int)
    requires Ascending(ns, lo, hi)
    ensures |ns| <= if lo <= hi then hi - lo else 0
  {
    if ns != [] {
      AscendingLength(ns[1..], ns[0] + 1, hi);
    }
  }

  lemma {:induction false} RoundNumbersConcat(a: seq<Event>, b: seq<Event>)
    ensures RoundNumbers(a + b) == RoundNumbers(a) + RoundNumbers(b)
  {
    if a == [] {
      assert a + b == b;
    } else {
      assert (a + b)[1..] == a[1..] + b;
      RoundNumbersConcat(a[1..], b);
      var head := if a[0].RoundAt? then [a[0].round] else [];
      assert RoundNumbers(a + b) == head + RoundNumbers(a[1..] + b);
      assert head + (RoundNumbers(a[1..]) + RoundNumbers(b)) == (head + RoundNumbers(a[1..])) + RoundNumbers(b);
    }
  }

  function Max(a: int, b: int): int {
    if a < b then b else a
  }

  lemma SingleAscending(n: int, hi: int)
    requires n < hi
    ensures Ascending([n], n, hi)
  {
  }

  lemma AscendingCons(n: int, ns: seq<int>, hi: int)
    requires Ascending(ns, n + 1, hi) && n < hi
    ensures Ascending([n] + ns, n, hi)
  {
  }

  lemma FirstRound(s: JobRec, contract: Contract, round: int, limit: int, inputs: Oracle, k: nat)
    requires round < limit
    ensures var r := Rounds(s, contract, round, limit, inputs, k); var s1 := Round(s, contract, round, inputs(k));
      if s1.status.Running? then
        var rest := Rounds(s1, contract, round + 1, limit, inputs, k + 1);
        r.s == rest.s && RoundNumbers(r.events) == [round] + RoundNumbers(rest.events)
      else r.s == s1 && RoundNumbers(r.events) == [round]
  {
    hide Round;
    var r := Rounds(s, contract, round, limit, inputs, k);
    var s1 := Round(s, contract, round, inputs(k));
    if s1.status.Running? {
      assert r.events[1..] == Rounds(s1, contract, round + 1, limit, inputs, k + 1).events;
    } else {
      assert r.events[1..] == [];
    }
  }

  lemma {:induction false} RoundsAscend(s: JobRec, contract: Contract, round: int, limit: int, inputs: Oracle, k: nat)
    ensures Ascending(RoundNumbers(Rounds(s, contract, round, limit, inputs, k).events), round, Max(round, limit))
    decreases limit - round
  {
    if round < limit {
      FirstRound(s, contract, round, limit, inputs, k);
      hide Round, Ascending, Rounds, RoundNumbers;
      var s1 := Round(s, contract, round, inputs(k));
      if s1.status.Running? {
        RoundsAscend(s1, contract, round + 1, limit, inputs, k + 1);
        AscendingCons(round, RoundNumbers(Rounds(s1, contract, round + 1, limit, inputs, k + 1).events), limit);
      } else {
        SingleAscending(round, limit);
      }
    } else {
      assert RoundNumbers([Exhaust]) == RoundNumbers([]) == [];
    }
  }

  /** If the loop can be resumed, the next entry starts above every round executed so far. */
  ghost predicate EndsAtLast(r: Trace, from: int, round: int, limit: int) {
    CanResume(r.s) ==>
      && Ascending(RoundNumbers(r.events), round, r.s.round + 1)
      && (if round < limit then round <= r.s.round < limit else r.s.round == from)
  }

  lemma EndsAtLastCons(r: Trace, rest: Trace, from: int, round: int, limit: int)
    requires round < limit && EndsAtLast(rest, round, round + 1, limit)
    requires r.s == rest.s && RoundNumbers(r.events) == [round] + RoundNumbers(rest.events)
    ensures EndsAtLast(r, from, round, limit)
  {
    hide RoundNumbers, Ascending;
    if CanResume(rest.s) {
      AscendingCons(round, RoundNumbers(rest.events), rest.s.round + 1);
    }
  }

  lemma {:induction false} RoundsEndAtLast(s: JobRec, contract: Contract, round: int, limit: int, inputs: Oracle, k: nat)
    requires s.round < round || round < limit
    ensures EndsAtLast(Rounds(s, contract, round, limit, inputs, k), s.round, round, limit)
    decreases limit - round
  {
    if round < limit {
      FirstRound(s, contract, round, limit, inputs, k);
      RoundKeepsCounters(s, contract, round, inputs(k));
      hide Round, Rounds, RoundNumbers;
      var s1 := Round(s, contract, round, inputs(k));
      if s1.status.Running? {
        hide EndsAtLast;
        RoundsEndAtLast(s1, contract, round + 1, limit, inputs, k + 1);
        EndsAtLastCons(Rounds(s, contract, round, limit, inputs, k), Rounds(s1, contract, round + 1, limit, inputs, k + 1), s.round, round, limit);
      } else {
        SingleAscending(round, round + 1);
      }
    } else {
      assert RoundNumbers([Exhaust]) == RoundNumbers([]) == [];
    }
  }

  lemma AscendingConcat(a: seq<int>, b: seq<int>, lo: int, mid: int, hi: int)
    requires Ascending(a, lo, mid) && Ascending(b, mid, hi) && lo <= mid <= hi
    ensures Ascending(a + b, lo, hi)
  {
  }

  function FirstRoundNumber(s: JobRec, resuming: bool): int {
    if resuming then s.round + 1 else 0
  }

  lemma {:induction false} RoundsInTurn(s: JobRec, contract: Contract, round: int, limit: int, inputs: Oracle, k: nat)
    requires s.status.Running?
    ensures var r := Rounds(s, contract, round, limit, inputs, k); var ns := RoundNumbers(r.events);
      && (forall i :: 0 <= i < |ns| ==> ns[i] == round + i)
      && r.events != [] && (r.events[|r.events| - 1].Exhaust? ==> |ns| == if round < limit then limit - round else 0)
      && (!r.events[|r.events| - 1].Exhaust? ==> 1 <= |ns| && round + |ns| <= limit)
    decreases limit - round
  {
    if round < limit {
      FirstRound(s, contract, round, limit, inputs, k);
      hide Round, RoundNumbers;
      var s1 := Round(s, contract, round, inputs(k));
      if s1.status.Running? {
        RoundsInTurn(s1, contract, round + 1, limit, inputs, k + 1);
      }
    } else {
      assert RoundNumbers([Exhaust]) == RoundNumbers([]) == [];
    }
  }

  /** One entry to the loop executes its rounds one after the other, from the first, or the one after the last
      executed, up to its budget unless it stops before; the budget is what building the plan made it. */
  lemma EntryRunsInTurn(s: JobRec, contract: Contract, built: PlanRec, resuming: bool, inputs: Oracle, k: nat)
    requires s.status.Running?
    ensures var r := Loop(s, contract, built, resuming, inputs, k); var ns := RoundNumbers(r.events);
      var start, budget := if resuming then s.round + 1 else 0, Planned(s, built).roundBudget;
      && (forall i :: 0 <= i < |ns| ==> ns[i] == start + i)
      && r.events != [] && (r.events[|r.events| - 1].Exhaust? ==> |ns| == if start < budget then budget - start else 0)
      && (!r.events[|r.events| - 1].Exhaust? ==> 1 <= |ns| && start + |ns| <= budget)
  {
    hide Rounds, RoundNumbers;
    var s1 := Entered(Planned(s, built));
    RoundsInTurn(s1, contract, if resuming then s1.round + 1 else 0, s1.roundBudget, inputs, k);
  }

  /** Round numbers only ever go up, across all automatic continuations, and stay below the last budget. */
  lemma {:induction false} RunAscends(s: JobRec, contract: Contract, built: PlanRec, resuming: bool, inputs: Oracle, k: nat)
    requires s.autoContinues <= AutoCap(contract)
    requires resuming || 0 < Planned(s, built).roundBudget
    ensures var start := FirstRoundNumber(s, resuming);
      var last := Planned(s, built).roundBudget + MAX_ROUNDS * (AutoCap(contract) - s.autoContinues);
      Ascending(RoundNumbers(RunFrom(s, contract, built, resuming, inputs, k).events), start, Max(start, last))
    decreases AutoCap(contract) - s.autoContinues
  {
    hide Rounds, Ascending, RoundNumbers;
    var start := FirstRoundNumber(s, resuming);
    var s1 := Entered(Planned(s, built));
    var last := s1.roundBudget + MAX_ROUNDS * (AutoCap(contract) - s.autoContinues);
    RoundsAscend(s1, contract, start, s1.roundBudget, inputs, k);
    LoopKeepsCounters(s, contract, built, resuming, inputs, k);
    var first := Loop(s, contract, built, resuming, inputs, k);
    if AutoContinues(first.s, contract) {
      RoundsEndAtLast(s1, contract, start, s1.roundBudget, inputs, k);
      var next := AutoContinued(first.s);
      var mid := FirstRoundNumber(next, true);
      RunAscends(next, contract, built, true, inputs, k + |first.events|);
      var rest := RunFrom(next, contract, built, true, inputs, k + |first.events|);
      RunNumbers(first.events, rest.events);
      AscendingWiden(RoundNumbers(rest.events), mid, Planned(next, built).roundBudget + MAX_ROUNDS * (AutoCap(contract) - next.autoContinues), Max(start, last));
      AscendingConcat(RoundNumbers(first.events), RoundNumbers(rest.events), start, mid, Max(start, last));
    } else {
      AscendingWiden(RoundNumbers(first.events), start, s1.roundBudget, Max(start, last));
    }
  }

  lemma ResumeHasNoRound()
    ensures RoundNumbers([Resume(true)]) == []
  {
    assert [Resume(true)][1..] == [];
  }

  lemma RunNumbers(a: seq<Event>, b: seq<Event>)
    ensures RoundNumbers(a + [Resume(true)] + b) == RoundNumbers(a) + RoundNumbers(b)
  {
    hide RoundNumbers;
    RoundNumbersConcat(a + [Resume(true)], b);
    RoundNumbersConcat(a, [Resume(true)]);
    ResumeHasNoRound();
  }

  lemma AscendingWiden(ns: seq<int>, lo: int, hi: int, wider: int)
    requires Ascending(ns, lo, Max(lo, hi)) && Max(lo, hi) <= wider
    ensures Ascending(ns, lo, wider)
  {
  }

  // ---- a job from start to end ----

  const NewJob: JobRec :=
    JobRec(PlanRec([], 0), PlanRec([], 0), false, [], map[], false, 0, 0, MAX_ROUNDS, 0, 0, false, Running, NoReason)

  lemma {:induction false} ResumesAtMostCap(s: JobRec, contract: Contract, built: PlanRec, resuming: bool, inputs: Oracle, k: nat)
    requires s.autoContinues <= AutoCap(contract)
    ensures var r := RunFrom(s, contract, built, resuming, inputs, k);
      Resumes(r.events) <= AutoCap(contract) - s.autoContinues && NoRestart(r.events)
    decreases AutoCap(contract) - s.autoContinues
  {
    hide Rounds, Resumes;
    var s1 := Entered(Planned(s, built));
    RoundsDoNotResume(s1, contract, FirstRoundNumber(s, resuming), s1.roundBudget, inputs, k);
    LoopKeepsCounters(s, contract, built, resuming, inputs, k);
    var first := Loop(s, contract, built, resuming, inputs, k);
    if AutoContinues(first.s, contract) {
      var next := AutoContinued(first.s);
      ResumesAtMostCap(next, contract, built, true, inputs, k + |first.events|);
      var rest := RunFrom(next, contract, built, true, inputs, k + |first.events|);
      ResumesConcat(first.events, rest.events);
    }
  }

  lemma {:induction false} RoundsDoNotResume(s: JobRec, contract: Contract, round: int, limit: int, inputs: Oracle, k: nat)
    ensures var es := Rounds(s, contract, round, limit, inputs, k).events; Resumes(es) == 0 && NoRestart(es)
    decreases limit - round
  {
    hide Round;
    var es := Rounds(s, contract, round, limit, inputs, k).events;
    if round < limit {
      var s1 := Round(s, contract, round, inputs(k));
      if s1.status.Running? {
        RoundsDoNotResume(s1, contract, round + 1, limit, inputs, k + 1);
        assert es[1..] == Rounds(s1, contract, round + 1, limit, inputs, k + 1).events;
      } else {
        assert es[1..] == [];
      }
    } else {
      assert es[1..] == [];
    }
  }

  lemma {:induction false} ResumesPlus(a: seq<Event>, b: seq<Event>)
    ensures Resumes(a + b) == Resumes(a) + Resumes(b)
  {
    if a == [] {
      assert a + b == b;
    } else {
      assert (a + b)[1..] == a[1..] + b;
      ResumesPlus(a[1..], b);
    }
  }

  lemma ResumesConcat(a: seq<Event>, b: seq<Event>)
    ensures Resumes(a + [Resume(true)] + b) == Resumes(a) + 1 + Resumes(b)
  {
    ResumesPlus(a + [Resume(true)], b);
    ResumesPlus(a, [Resume(true)]);
    assert [Resume(true)][1..] == [];
  }

  /** A new job with a plan of n tasks executes at most max(10, 4n) + 10 * cap rounds, in ascending order;
      at most 58n + 100 + 7 * cap of them count against the plan; and the run stops for a reason that is
      not continued automatically. */
  lemma JobTerminates(contract: Contract, built: PlanRec, inputs: Oracle)
    requires WellFormed(built)
    requires RunPossible(Entered(Planned(NewJob, built)), contract, RunFrom(NewJob, contract, built, false, inputs, 0).events)
    ensures var r := RunFrom(NewJob, contract, built, false, inputs, 0);
      var n, cap := |built.tasks|, AutoCap(contract);
      var limit := Max(10, 4 * n) + 10 * cap;
      && Ascending(RoundNumbers(r.events), 0, limit) && |RoundNumbers(r.events)| <= limit
      && CountedRounds(Entered(Planned(NewJob, built)), contract, r.events) <= 58 * n + 100 + 7 * cap
      && !r.s.status.Running? && !AutoContinues(r.s, contract)
      && WellFormed(r.s.plan) && !IsStuck(r.s.plan)
  {
    var s := Entered(Planned(NewJob, built));
    var r := RunFrom(NewJob, contract, built, false, inputs, 0);
    hide RunFrom, WellFormed, RunPossible, Ascending, CountedRounds, After, Resumes, IsStuck;
    RunIsEvents(NewJob, contract, built, false, inputs, 0);
    RunAscends(NewJob, contract, built, false, inputs, 0);
    var limit := Max(MAX_ROUNDS, 4 * |built.tasks|) + MAX_ROUNDS * AutoCap(contract);
    AscendingLength(RoundNumbers(r.events), 0, limit);
    ResumesAtMostCap(NewJob, contract, built, false, inputs, 0);
    LagsReflexive(built);
    PlanTerminates(s, contract, r.events);
    RunsAreNeverStuck(s, contract, r.events);
  }
}
