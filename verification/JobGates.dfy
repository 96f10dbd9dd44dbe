/** When a job may say it is done, and exactly when it says so with work left behind or a failed task. */
module JobGates {
  import opened Ids
  import opened PlanModel
  import opened JobModel
  import opened JobRuns
  import opened JobLoop
  import opened LegalRuns

  predicate GatesPass(s: JobRec, contract: Contract, input: RoundInput) {
    input.outcome.FinalAnswer? && input.outcome.claimsHold && ContractMet(contract, s.toolsCalled)
  }

  predicate ReportsDone(s: JobRec) {
    s.status.Done? && !s.cancelled
  }

  // ---- the top of the round ----

  lemma UnblockedIsComplete(p: PlanRec)
    requires p.tasks != [] && !Blocks(p)
    ensures IsComplete(p)
  {
  }

  /** At the top of a round without an active task the plan is empty or complete, and nothing in it failed. */
  lemma IdleTop(s: JobRec, round: int, input: RoundInput)
    requires s.status.Running?
    ensures var top := AtTop(s, round, input);
      && top.s.toolsCalled == s.toolsCalled
      && (top.Stop? ==> !ReportsDone(top.s))
      && (top.Go? ==> top.s.status.Running? && !top.s.cancelled)
      && (top.Go? && top.active < 0 ==>
            top.s.plan == s.plan && (s.plan.tasks == [] || IsComplete(s.plan)) && !AnyFailed(s.plan) && Current(s.plan) < 0)
  {
    hide Current, Intervene, IsComplete, Blocks, WellFormed;
    if s.plan.tasks != [] && !Blocks(s.plan) {
      UnblockedIsComplete(s.plan);
    }
  }

  /** An intervention fails its task exactly if it is the third. */
  lemma ThirdFails(p: PlanRec, i: nat)
    requires WellFormed(p) && i < |p.tasks| && p.tasks[i].status.InProgress?
    ensures Intervene(p, i).tasks[i].status.Failed? <==> p.tasks[i].interventions + 1 >= MAX_INTERVENTIONS_PER_TASK
    ensures p.tasks[i].interventions + 1 < MAX_INTERVENTIONS_PER_TASK ==> Intervene(p, i) == p.With(i, InterventionCounted(p.tasks[i]))
  {
    assert InBudget(p.tasks[i]);
    var q := p.With(i, ForcedTask(p.tasks[i]));
    WithKeepsStarted(p, i, ForcedTask(p.tasks[i]));
    hide WellFormed, Recover;
    RecoverKeepsShape(q, i);
  }

  lemma BegunTask(s: JobRec, c: nat, inferred: seq<string>)
    requires c < |s.plan.tasks|
    ensures var s' := Begun(s, c, inferred); var t, u := s.plan.tasks[c], s'.plan.tasks[c];
      && u.interventions == t.interventions && (forall thrashing :: InterventionDue(u, thrashing) == InterventionDue(t, thrashing))
      && s'.plan == s.plan.With(c, u) && u.objective == t.objective && u.isRecovery == t.isRecovery && u.status.InProgress?
  {
    if s.plan.tasks[c].status.InProgress? {
      assert s.plan.tasks[c := s.plan.tasks[c]] == s.plan.tasks;
    }
  }

  /** The task being worked on at the top of a round. */
  lemma ActiveTop(s: JobRec, round: int, input: RoundInput)
    requires Inv(s) && s.status.Running? && !s.cancelled && !input.cancel && Current(s.plan) >= 0
    ensures var top, c := AtTop(s, round, input), Current(s.plan); var p := Begun(s, c, input.inferred).plan;
      && top.Go? && top.active == c
      && top.s.plan == (if InterventionDue(s.plan.tasks[c], input.thrashing) then Intervene(p, c) else p)
      && WellFormed(p)
      && (top.s.plan.tasks[c].status.Failed? <==> GivesUp(s, input))
      && (top.s.plan.tasks[c].status.Terminal() <==> top.s.plan.tasks[c].status.Failed?)
  {
    var c := Current(s.plan);
    BegunKeeps(s, input.inferred);
    BegunTask(s, c, input.inferred);
    var p := Begun(s, c, input.inferred).plan;
    hide WellFormed, Swept, Progresses, Lags;
    ThirdFails(p, c);
    IntervenedKeeps(p, c);
    BegunIsRounded(s, c, round, input.inferred);
    hide Current, Intervene, Begun, InterventionDue;
  }

  lemma BegunIsRounded(s: JobRec, c: nat, round: int, inferred: seq<string>)
    requires c < |s.plan.tasks|
    ensures Begun(s.(cancelled := false, round := round), c, inferred).plan == Begun(s, c, inferred).plan
  {
  }

  lemma BodyDone(s: JobRec, contract: Contract, active: int, o: Outcome)
    requires active < |s.plan.tasks| && s.status.Running? && !s.cancelled
    ensures var s' := AfterRound(s, contract, active, o);
      ReportsDone(s') <==>
        && o.FinalAnswer? && o.claimsHold && ContractMet(contract, s.toolsCalled)
        && (active >= 0 && !s.plan.tasks[active].status.Terminal() ==>
              o.checksPass && !Blocks(Claimed(s.plan, active, o)))
    ensures var s' := AfterRound(s, contract, active, o);
      ReportsDone(s') ==>
        && s'.toolsCalled == s.toolsCalled
        && s'.plan == if active >= 0 && !s.plan.tasks[active].status.Terminal() then Claimed(s.plan, active, o) else s.plan
  {
    hide Blocks, Claimed, TryAdvance, ContractMet;
  }

  // ---- one round ----

  /** An uncancelled round only reports done when every required tool is credited, no claim failed, and the
      plan, if there is one, is complete, unless this very round gave its task up. */
  lemma DoneRound(s: JobRec, contract: Contract, round: int, input: RoundInput)
    requires Inv(s) && s.status.Running?
    ensures var s' := Round(s, contract, round, input);
      ReportsDone(s') ==>
        && GatesPass(s', contract, input) && s'.toolsCalled == s.toolsCalled
        && (s'.plan.tasks == [] || IsComplete(s'.plan) || GivesUp(s, input))
  {
    IdleTop(s, round, input);
    var top := AtTop(s, round, input);
    if top.Go? && top.active >= 0 {
      ActiveTop(s, round, input);
    }
    hide AtTop, AfterRound, ContractMet, Claimed, IsComplete, Blocks, WellFormed, GivesUp;
    if top.Go? {
      BodyDone(top.s, contract, top.active, input.outcome);
      var s' := Round(s, contract, round, input);
      if s'.plan.tasks != [] && !Blocks(s'.plan) {
        UnblockedIsComplete(s'.plan);
      }
    }
  }

  /** Giving this task up leaves something undone: its repair, another task, or everything. */
  predicate LeavesWork(p: PlanRec, c: nat)
    requires c < |p.tasks|
  {
    || RepairAllowed(p, p.tasks[c])
    || (exists k :: 0 <= k < |p.tasks| && k != c && !p.tasks[k].status.Terminal())
    || (forall k :: 0 <= k < |p.tasks| ==> !p.tasks[k].status.Completed?)
  }

  lemma AbandonedIsIncomplete(p: PlanRec, c: nat)
    requires WellFormed(p) && c < |p.tasks| && p.tasks[c].status.InProgress?
    requires p.tasks[c].interventions + 1 >= MAX_INTERVENTIONS_PER_TASK
    ensures !IsComplete(Intervene(p, c)) <==> LeavesWork(p, c)
    ensures RepairAllowed(p, p.tasks[c]) || (exists k :: 0 <= k < |p.tasks| && k != c && !p.tasks[k].status.Terminal())
      ==> WorkRemains(Intervene(p, c))
  {
    var t := p.tasks[c];
    var q := p.With(c, ForcedTask(t));
    assert InBudget(t);
    WithKeepsStarted(p, c, ForcedTask(t));
    hide WellFormed;
    assert RepairAllowed(q, q.tasks[c]) <==> RepairAllowed(p, t) by { SameRepairs(p, q, c); }
    if RepairAllowed(q, q.tasks[c]) {
      RecoverInserts(q, c);
      hide RepairAllowed, Recover;
      assert Recover(q, c).tasks[c + 1].status.Pending?;
    } else {
      hide RepairAllowed;
      assert Recover(q, c) == q;
      assert forall k :: 0 <= k < |p.tasks| && k != c ==> q.tasks[k] == p.tasks[k];
      assert q.tasks[c].status.Failed?;
      OnlyDifference(p, q, c);
    }
  }

  lemma SameRepairs(p: PlanRec, q: PlanRec, c: nat)
    requires c < |p.tasks| == |q.tasks| && q.revisions == p.revisions
    requires q.tasks[c].isRecovery == p.tasks[c].isRecovery
    requires forall k :: 0 <= k < |p.tasks| ==> q.tasks[k].objective == p.tasks[k].objective
    ensures RepairAllowed(q, q.tasks[c]) <==> RepairAllowed(p, p.tasks[c])
  {
    assert RepairObjective(q.tasks[c]) == RepairObjective(p.tasks[c]);
  }

  lemma OnlyDifference(p: PlanRec, q: PlanRec, c: nat)
    requires c < |p.tasks| == |q.tasks| && p.tasks[c].status.InProgress? && q.tasks[c].status.Failed?
    requires forall k :: 0 <= k < |p.tasks| && k != c ==> q.tasks[k] == p.tasks[k]
    ensures (exists k :: 0 <= k < |p.tasks| && k != c && !p.tasks[k].status.Terminal()) ==> WorkRemains(q)
    ensures !IsComplete(q) <==>
      || (exists k :: 0 <= k < |p.tasks| && k != c && !p.tasks[k].status.Terminal())
      || (forall k :: 0 <= k < |p.tasks| ==> !p.tasks[k].status.Completed?)
  {
    if k :| 0 <= k < |p.tasks| && k != c && !p.tasks[k].status.Terminal() {
      assert !q.tasks[k].status.Terminal();
    }
    if k :| 0 <= k < |q.tasks| && !q.tasks[k].status.Terminal() {
      assert p.tasks[k] == q.tasks[k];
    }
    if k :| 0 <= k < |p.tasks| && p.tasks[k].status.Completed? {
      assert q.tasks[k].status.Completed?;
    }
    if k :| 0 <= k < |q.tasks| && q.tasks[k].status.Completed? {
      assert p.tasks[k].status.Completed?;
    }
  }

  lemma BegunLeavesAlike(s: JobRec, inferred: seq<string>)
    requires Current(s.plan) >= 0
    ensures var c := Current(s.plan); LeavesWork(Begun(s, c, inferred).plan, c) <==> LeavesWork(s.plan, c)
  {
    var c := Current(s.plan);
    CurrentWorks(s.plan);
    BegunTask(s, c, inferred);
    var p, q := s.plan, Begun(s, c, inferred).plan;
    SameRepairs(p, q, c);
    hide Current, Begun, RepairAllowed;
    assert forall k :: 0 <= k < |p.tasks| && k != c ==> q.tasks[k] == p.tasks[k];
    assert q.tasks[c].status.InProgress? && !p.tasks[c].status.Completed?;
  }

  /** The exception is exact: a job with a plan reports done on an incomplete plan if and only if this
      round's intervention gives the active task up, that leaves something undone, and the answer then
      passes the two job-level gates. */
  lemma UnfinishedDone(s: JobRec, contract: Contract, round: int, input: RoundInput)
    requires Inv(s) && s.status.Running? && s.plan.tasks != []
    ensures var s' := Round(s, contract, round, input);
      ReportsDone(s') && !IsComplete(s'.plan) <==>
        GivesUp(s, input) && LeavesWork(s.plan, Current(s.plan)) && GatesPass(s, contract, input)
  {
    DoneRound(s, contract, round, input);
    if GivesUp(s, input) {
      var c := Current(s.plan);
      BegunKeeps(s, input.inferred);
      BegunTask(s, c, input.inferred);
      ActiveTop(s, round, input);
      IdleTop(s, round, input);
      BegunLeavesAlike(s, input.inferred);
      var top := AtTop(s, round, input);
      hide Current, Begun, Intervene, Inv, LeavesWork, IsComplete, AtTop, AfterRound, GivesUp, ContractMet;
      AbandonedIsIncomplete(Begun(s, c, input.inferred).plan, c);
      BodyDone(top.s, contract, top.active, input.outcome);
    } else {
      hide Current, LeavesWork, Round, ContractMet, GivesUp;
      NotEmptied(s, contract, round, input);
    }
  }

  lemma NotEmptied(s: JobRec, contract: Contract, round: int, input: RoundInput)
    requires Inv(s) && s.plan.tasks != []
    ensures Round(s, contract, round, input).plan.tasks != []
  {
    hide Round, WellFormed;
    RoundKeeps(s, contract, round, input);
  }

  // ---- failed tasks ----

  lemma SameFailures(p: PlanRec, i: nat, t: TaskRec)
    requires i < |p.tasks| && !p.tasks[i].status.Failed? && !t.status.Failed?
    ensures AnyFailed(p.With(i, t)) <==> AnyFailed(p)
  {
    var q := p.With(i, t);
    if k :| 0 <= k < |p.tasks| && p.tasks[k].status.Failed? {
      assert q.tasks[k].status.Failed?;
    }
    if k :| 0 <= k < |q.tasks| && q.tasks[k].status.Failed? {
      assert p.tasks[k].status.Failed?;
    }
  }

  /** Completing an unfinished active task adds no failure. */
  lemma ClaimedFailures(p: PlanRec, active: nat, o: Outcome)
    requires active < |p.tasks| && !p.tasks[active].status.Failed? && o.FinalAnswer? && o.checksPass
    ensures AnyFailed(Claimed(p, active, o)) <==> AnyFailed(p)
  {
    var t := RoundRecordedTask(p.tasks[active], o.progress, o.chars);
    SameFailures(p, active, t);
    SameFailures(p.With(active, t), active, ValidatedTask(t, true));
  }

  /** A round that does not give its task up starts with the failures there were. */
  lemma TopFailures(s: JobRec, round: int, input: RoundInput)
    requires Inv(s) && s.status.Running? && !s.cancelled && !input.cancel && Current(s.plan) >= 0
    ensures var top := AtTop(s, round, input).s.plan;
      if GivesUp(s, input) then AnyFailed(top) else AnyFailed(top) <==> AnyFailed(s.plan)
  {
    var c := Current(s.plan);
    CurrentWorks(s.plan);
    ActiveTop(s, round, input);
    BegunTask(s, c, input.inferred);
    var p := Begun(s, c, input.inferred).plan;
    SameFailures(s.plan, c, p.tasks[c]);
    ThirdFails(p, c);
    if !GivesUp(s, input) && InterventionDue(s.plan.tasks[c], input.thrashing) {
      SameFailures(p, c, InterventionCounted(p.tasks[c]));
    }
    hide Current, Begun, Intervene, InterventionDue, Inv, GivesUp, WellFormed;
    assert AtTop(s, round, input).s.plan.tasks[c].status.Failed? ==> AnyFailed(AtTop(s, round, input).s.plan);
  }

  /** A job reports done with a failed task in its plan exactly when the round it reports it in had a task to
      work on, and something had failed before or the round gave that task up. The very same plan, met at
      the top of a round, is reported as `tasks_failed`, provided it is complete. */
  lemma DoneWithFailedTask(s: JobRec, contract: Contract, round: int, input: RoundInput)
    requires Inv(s) && s.status.Running? && ReportsDone(Round(s, contract, round, input))
    ensures var s' := Round(s, contract, round, input);
      AnyFailed(s'.plan) <==> Current(s.plan) >= 0 && (AnyFailed(s.plan) || GivesUp(s, input))
    ensures var s' := Round(s, contract, round, input);
      forall later, other: RoundInput :: AnyFailed(s'.plan) && IsComplete(s'.plan) && !other.cancel ==>
        Round(s'.(status := Running), contract, later, other).reason.TasksFailed?
  {
    IdleTop(s, round, input);
    var top, s' := AtTop(s, round, input), Round(s, contract, round, input);
    hide ContractMet;
    if top.active >= 0 {
      ActiveTop(s, round, input);
      TopFailures(s, round, input);
      hide AtTop, AfterRound, Claimed, Blocks, GivesUp, AnyFailed, WellFormed, Current;
      BodyDone(top.s, contract, top.active, input.outcome);
      if !top.s.plan.tasks[top.active].status.Terminal() {
        ClaimedFailures(top.s.plan, top.active, input.outcome);
      }
    } else {
      BodyDone(top.s, contract, top.active, input.outcome);
    }
    forall later, other: RoundInput | AnyFailed(s'.plan) && IsComplete(s'.plan) && !other.cancel
      ensures Round(s'.(status := Running), contract, later, other).reason.TasksFailed?
    {
      CompleteWithFailure(s'.(status := Running), contract, later, other);
    }
  }

  lemma CompleteWithFailure(s: JobRec, contract: Contract, round: int, input: RoundInput)
    requires s.status.Running? && !s.cancelled && !input.cancel && AnyFailed(s.plan) && IsComplete(s.plan)
    ensures Round(s, contract, round, input).reason.TasksFailed?
  {
    hide Begun, Intervene;
    if Current(s.plan) >= 0 {
      CurrentWorks(s.plan);
    }
  }

  // ---- whole runs ----

  /** Event `j` is the round in which this run reported done, with everything its gates require. */
  ghost predicate DoneIn(s: JobRec, contract: Contract, events: seq<Event>, j: nat) {
    && j < |events| && events[j].RoundAt?
    && var before, end := After(s, contract, events[..j]), After(s, contract, events);
      && before.status.Running? && end == Round(before, contract, events[j].round, events[j].input)
      && GatesPass(end, contract, events[j].input)
      && (end.plan.tasks == [] || IsComplete(end.plan) || GivesUp(before, events[j].input))
  }

  lemma {:induction false} EndedStays(s: JobRec, contract: Contract, events: seq<Event>)
    requires s.status.Done?
    ensures After(s, contract, events) == s
    decreases |events|
  {
    if events != [] {
      EndedStays(s, contract, events[1..]);
    }
  }

  lemma DoneInLater(s: JobRec, contract: Contract, events: seq<Event>, j: nat)
    requires events != [] && DoneIn(Apply(s, contract, events[0]), contract, events[1..], j)
    ensures DoneIn(s, contract, events, j + 1)
  {
    hide Apply, GatesPass, IsComplete, GivesUp, Round;
    assert events[..j + 1][1..] == events[1..][..j];
  }

  /** Whatever happens to a job, it only ever reports done in a round that passes the gates: every required
      tool is credited, no claim failed, and the plan is empty, complete, or was given up on in that round. */
  lemma {:induction false} DoneIsGated(s: JobRec, contract: Contract, events: seq<Event>)
    requires Inv(s) && !s.status.Done? && ReportsDone(After(s, contract, events))
    ensures exists j :: DoneIn(s, contract, events, j)
    decreases |events|
  {
    if events != [] {
      var s1 := Apply(s, contract, events[0]);
      ApplyKeepsInv(s, contract, events[0]);
      if s1.status.Done? {
        EndedStays(s1, contract, events[1..]);
        hide Inv, GatesPass, IsComplete, GivesUp, Round;
        DoneRound(s, contract, events[0].round, events[0].input);
        assert events[..0] == [];
        assert DoneIn(s, contract, events, 0);
      } else {
        hide Inv, Apply, DoneIn, ReportsDone;
        DoneIsGated(s1, contract, events[1..]);
        var j :| DoneIn(s1, contract, events[1..], j);
        DoneInLater(s, contract, events, j);
      }
    }
  }

  function CallsNow(s: JobRec, e: Event): seq<string> {
    if e.RoundAt? && s.status.Running? && AtTop(s, e.round, e.input).Go? && e.input.outcome.ToolRound? then e.input.outcome.tools
    else []
  }

  /** The tools called in a run: those of its tool rounds, in order. */
  function CallsIn(s: JobRec, contract: Contract, events: seq<Event>): seq<string>
    decreases |events|
  {
    if events == [] then [] else CallsNow(s, events[0]) + CallsIn(Apply(s, contract, events[0]), contract, events[1..])
  }

  lemma BodyCalls(s: JobRec, contract: Contract, active: int, o: Outcome)
    requires active < |s.plan.tasks|
    ensures AfterRound(s, contract, active, o).toolsCalled == s.toolsCalled + if o.ToolRound? then o.tools else []
  {
    hide Claimed, ContractMet, Blocks, TryAdvance, ToolsRanInTask;
    assert s.toolsCalled + [] == s.toolsCalled;
  }

  lemma RoundCalls(s: JobRec, contract: Contract, round: int, input: RoundInput)
    requires s.status.Running?
    ensures Round(s, contract, round, input).toolsCalled == s.toolsCalled
      + if AtTop(s, round, input).Go? && input.outcome.ToolRound? then input.outcome.tools else []
  {
    hide AtTop, AfterRound;
    IdleTop(s, round, input);
    var top := AtTop(s, round, input);
    if top.Go? {
      BodyCalls(top.s, contract, top.active, input.outcome);
    } else {
      assert s.toolsCalled + [] == s.toolsCalled;
    }
  }

  lemma EventCalls(s: JobRec, contract: Contract, e: Event)
    ensures Apply(s, contract, e).toolsCalled == s.toolsCalled + CallsNow(s, e)
  {
    hide Round, AtTop;
    assert s.toolsCalled + [] == s.toolsCalled;
    if e.RoundAt? && s.status.Running? {
      RoundCalls(s, contract, e.round, e.input);
    }
  }

  /** Nothing else is ever credited to a job. */
  lemma {:induction false} CallsAreCredited(s: JobRec, contract: Contract, events: seq<Event>)
    ensures After(s, contract, events).toolsCalled == s.toolsCalled + CallsIn(s, contract, events)
    decreases |events|
  {
    hide Apply, CallsNow;
    if events != [] {
      var s1 := Apply(s, contract, events[0]);
      EventCalls(s, contract, events[0]);
      CallsAreCredited(s1, contract, events[1..]);
      var now, rest := CallsNow(s, events[0]), CallsIn(s1, contract, events[1..]);
      assert (s.toolsCalled + now) + rest == s.toolsCalled + (now + rest);
    }
  }

  /** A new job that `_run` carries to its end, automatic continuations included, is only reported done with
      its contract met; unless it delegated or modifies files, that means that the tool rounds of its run
      called every required tool. */
  lemma JobDoneIsGated(contract: Contract, built: PlanRec, inputs: Oracle)
    requires WellFormed(built)
    ensures var s, r := Entered(Planned(NewJob, built)), RunFrom(NewJob, contract, built, false, inputs, 0);
      ReportsDone(r.s) ==> ContractMet(contract, r.s.toolsCalled) && exists j :: DoneIn(s, contract, r.events, j)
    ensures var r := RunFrom(NewJob, contract, built, false, inputs, 0);
      ReportsDone(r.s) && !Delegates(r.s.toolsCalled) && !contract.intent.Modify? ==>
        forall t :: t in contract.requiredTools ==> t in r.s.toolsCalled
    ensures var s, r := Entered(Planned(NewJob, built)), RunFrom(NewJob, contract, built, false, inputs, 0);
      r.s.toolsCalled == CallsIn(s, contract, r.events)
  {
    var s, r := Entered(Planned(NewJob, built)), RunFrom(NewJob, contract, built, false, inputs, 0);
    hide RunFrom, WellFormed, After, ContractMet;
    RunIsEvents(NewJob, contract, built, false, inputs, 0);
    LagsReflexive(built);
    CallsAreCredited(s, contract, r.events);
    if ReportsDone(r.s) {
      DoneIsGated(s, contract, r.events);
      var j :| DoneIn(s, contract, r.events, j);
      if !Delegates(r.s.toolsCalled) {
        UndelegatedContract(contract, r.s.toolsCalled);
      }
    }
  }
}
