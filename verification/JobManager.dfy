/** The loop that runs a job, as the imperative program it is: rounds update the job, its plan and its
    task objects in place. Each method is proved to do what JobModel and JobLoop say, so everything
    proved there about rounds and runs holds of the program. */
module JobManagerState {
  import opened PlanModel
  import opened JobModel
  import opened ExecutionPlanState
  import opened Controller
  import JobRuns
  import JobLoop

  /** One streamed chunk: characters on the reasoning and content channels, whether the job was cancelled
      before it and whether the round's wall-clock limit had passed. */
  datatype Chunk = Chunk(reasoning: nat, content: nat, cancelled: bool, late: bool)

  datatype StreamEnd = Finished | OverLimit | OverTime

  function Generated(chunks: seq<Chunk>): nat {
    if chunks == [] then 0
    else Generated(chunks[..|chunks| - 1]) + chunks[|chunks| - 1].reasoning + chunks[|chunks| - 1].content
  }

  /** Every chunk counts, on both channels. */
  lemma {:induction false} GeneratedSplit(before: seq<Chunk>, c: Chunk, after: seq<Chunk>)
    ensures Generated([]) == 0
    ensures Generated(before + [c] + after) == Generated(before) + c.reasoning + c.content + Generated(after)
  {
    var all := before + [c] + after;
    if after == [] {
      assert all[..|all| - 1] == before;
    } else {
      assert all[..|all| - 1] == before + [c] + after[..|after| - 1];
      GeneratedSplit(before, c, after[..|after| - 1]);
    }
  }

  lemma {:induction false} GeneratedGrows(chunks: seq<Chunk>, k: nat)
    requires k <= |chunks|
    ensures Generated(chunks[..k]) <= Generated(chunks)
  {
    if k < |chunks| {
      GeneratedGrows(chunks[..|chunks| - 1], k);
      assert chunks[..|chunks| - 1][..k] == chunks[..k];
    } else {
      assert chunks[..k] == chunks;
    }
  }

  /** The stream goes on through the first `k` chunks. */
  predicate Flows(chunks: seq<Chunk>, limit: nat, k: nat)
    requires k <= |chunks|
  {
    (forall j :: 0 <= j < k ==> !chunks[j].cancelled && !chunks[j].late) && Generated(chunks[..k]) <= limit
  }

  /** How a stream that flowed through its first `k` chunks ends there: it is over or cancelled, the clock ran
      out, or chunk `k` took the total over the limit, on its reasoning or on its content. Characters are
      shown as they come, so everything generated before the cut was shown and the cut piece was not. */
  predicate EndsAt(chunks: seq<Chunk>, limit: nat, k: nat, end: StreamEnd, spent: nat, shown: nat)
    requires k <= |chunks|
  {
    var before := Generated(chunks[..k]);
    match end
    case Finished => (k < |chunks| ==> chunks[k].cancelled) && shown == spent == before
    case OverTime => k < |chunks| && !chunks[k].cancelled && chunks[k].late && shown == spent == before
    case OverLimit =>
      && k < |chunks| && !chunks[k].cancelled && !chunks[k].late && spent > limit
      && (if before + chunks[k].reasoning > limit then spent == before + chunks[k].reasoning && shown == before
          else spent == before + chunks[k].reasoning + chunks[k].content && shown == before + chunks[k].reasoning)
  }

  /** Consumes a stream under the round's two limits. It ends at exactly one place, in exactly one way; a
      cut on characters comes with more than the limit generated and no more than the limit shown. */
  method StreamRound(chunks: seq<Chunk>, limit: nat) returns (end: StreamEnd, spent: nat, shown: nat)
    ensures exists k :: 0 <= k <= |chunks| && Flows(chunks, limit, k) && EndsAt(chunks, limit, k, end, spent, shown)
    ensures shown <= limit && (end.OverLimit? ==> limit < spent)
  {
    spent, shown := 0, 0;
    for k := 0 to |chunks|
      invariant spent == shown == Generated(chunks[..k]) && Flows(chunks, limit, k)
    {
      assert chunks[..k + 1][..k] == chunks[..k];
      if chunks[k].cancelled {
        assert EndsAt(chunks, limit, k, Finished, spent, shown);
        return Finished, spent, shown;
      }
      if chunks[k].late {
        assert EndsAt(chunks, limit, k, OverTime, spent, shown);
        return OverTime, spent, shown;
      }
      if chunks[k].reasoning > 0 {
        spent := spent + chunks[k].reasoning;
        if spent > limit {
          assert EndsAt(chunks, limit, k, OverLimit, spent, shown);
          return OverLimit, spent, shown;
        }
        shown := shown + chunks[k].reasoning;
      }
      if chunks[k].content > 0 {
        spent := spent + chunks[k].content;
        if spent > limit {
          assert EndsAt(chunks, limit, k, OverLimit, spent, shown);
          return OverLimit, spent, shown;
        }
        shown := shown + chunks[k].content;
      }
    }
    assert EndsAt(chunks, limit, |chunks|, Finished, spent, shown);
    return Finished, spent, shown;
  }

  /** There is only one way for a stream to end. */
  lemma OneEnding(chunks: seq<Chunk>, limit: nat, k1: nat, end1: StreamEnd, spent1: nat, shown1: nat,
                  k2: nat, end2: StreamEnd, spent2: nat, shown2: nat)
    requires k1 <= |chunks| && Flows(chunks, limit, k1) && EndsAt(chunks, limit, k1, end1, spent1, shown1)
    requires k2 <= |chunks| && Flows(chunks, limit, k2) && EndsAt(chunks, limit, k2, end2, spent2, shown2)
    ensures k1 == k2 && end1 == end2 && spent1 == spent2 && shown1 == shown2
  {
    StopsHere(chunks, limit, k1, end1, spent1, shown1);
    StopsHere(chunks, limit, k2, end2, spent2, shown2);
    OneEnd(chunks, limit, k1);
    OneEnd(chunks, limit, k2);
  }

  lemma StopsHere(chunks: seq<Chunk>, limit: nat, k: nat, end: StreamEnd, spent: nat, shown: nat)
    requires k <= |chunks| && EndsAt(chunks, limit, k, end, spent, shown)
    ensures k < |chunks| ==> chunks[k].cancelled || chunks[k].late || Generated(chunks[..k + 1]) > limit
  {
    if k < |chunks| {
      assert chunks[..k + 1][..k] == chunks[..k];
    }
  }

  /** No stream flows past its end. */
  lemma OneEnd(chunks: seq<Chunk>, limit: nat, k: nat)
    requires k <= |chunks| && Flows(chunks, limit, k)
    requires k < |chunks| ==> chunks[k].cancelled || chunks[k].late || Generated(chunks[..k + 1]) > limit
    ensures forall j :: k < j <= |chunks| ==> !Flows(chunks, limit, j)
    ensures forall j :: 0 <= j < k ==> !chunks[j].cancelled && !chunks[j].late
  {
    forall j | k < j <= |chunks| ensures !Flows(chunks, limit, j) {
      assert chunks[..j][..k + 1] == chunks[..k + 1];
      GeneratedGrows(chunks[..j], k + 1);
    }
  }

  class JobManager {
    const job: Job
    const contract: Contract

    constructor (job: Job, contract: Contract)
      ensures this.job == job && this.contract == contract
    {
      this.job, this.contract := job, contract;
    }

    /** The controller works for this job, and `active` is the task object the round is for, at position
        `i` of the plan; a round without a task has none. */
    ghost predicate Working(controller: ExecutionController, active: Task?, i: int)
      reads controller.plan
    {
      && controller.job == job && controller.Valid()
      && (active == null <==> i < 0)
      && (active != null ==> controller.plan.Holds(active, i))
    }

    method ValidateCompletion() returns (passed: bool)
      ensures passed == ContractMet(contract, job.toolsCalled)
      ensures passed <==> forall t :: t in contract.requiredTools ==> Accounted(contract, job.toolsCalled, t)
    {
      ContractMetIff(contract, job.toolsCalled);
      var called := set t | t in job.toolsCalled;
      if called * DELEGATING_TOOLS != {} {
        called := called + DELEGATABLE_TOOLS;
      }
      if contract.intent == Modify && called * MODIFY_TOOLS != {} {
        called := called + MODIFY_TOOLS;
      }
      passed := (set t | t in contract.requiredTools) <= called;
    }

    method TopOfRound(controller: ExecutionController, round: int, input: RoundInput)
        returns (go: bool, active: Task?, ghost i: int)
      requires Working(controller, null, -1)
      modifies job, controller.plan, controller.plan.tasks
      ensures Working(controller, active, i)
      ensures forall k :: 0 <= k < |controller.plan.tasks| ==>
        controller.plan.tasks[k] in old(controller.plan.tasks) || fresh(controller.plan.tasks[k])
      ensures active != null ==> active in old(controller.plan.tasks)
      ensures var top := AtTop(old(controller.View()), round, input);
        && controller.View() == top.s && go == top.Go? && (go ==> i == top.active)
    {
      hide JobModel.SelectTask, Begun, OnTask, WithoutTask, Current, Blocks, AnyFailed, Begun;
      job.cancelled := job.cancelled || input.cancel;
      if job.cancelled {
        job.status := Done;
        return false, null, -1;
      }
      job.round := round;
      go, active, i := SelectTask(controller, input);
    }

    method SelectTask(controller: ExecutionController, input: RoundInput) returns (go: bool, active: Task?, ghost i: int)
      requires Working(controller, null, -1)
      modifies job, controller.plan, controller.plan.tasks
      ensures Working(controller, active, i)
      ensures forall k :: 0 <= k < |controller.plan.tasks| ==>
        controller.plan.tasks[k] in old(controller.plan.tasks) || fresh(controller.plan.tasks[k])
      ensures active != null ==> active in old(controller.plan.tasks)
      ensures var top := JobModel.SelectTask(old(controller.View()), input);
        && controller.View() == top.s && go == top.Go? && (go ==> i == top.active)
    {
      hide Current, WithoutTask, OnTask;
      if controller.plan.tasks == [] { return true, null, -1; }
      var current := controller.plan.CurrentTask();
      if current < 0 {
        go := Unassigned(controller);
        active, i := null, -1;
      } else {
        active, i := controller.plan.tasks[current], current;
        Assigned(controller, active, input, i);
        go := true;
      }
    }

    method Unassigned(controller: ExecutionController) returns (go: bool)
      requires Working(controller, null, -1)
      modifies job
      ensures Working(controller, null, -1)
      ensures var top := WithoutTask(old(controller.View())); controller.View() == top.s && go == top.Go?
    {
      hide Blocks, AnyFailed;
      ghost var before := controller.View();
      var blocked := controller.BlockingReason();
      if blocked {
        job.status, job.reason := Errored, PlanBlocked;
        return false;
      }
      var failed := controller.plan.AnyFailed();
      if failed {
        job.status, job.reason := Errored, TasksFailed;
        return false;
      }
      return true;
    }

    method Assigned(controller: ExecutionController, active: Task, input: RoundInput, ghost i: int)
      requires Working(controller, active, i)
      modifies job, controller.plan, controller.plan.tasks
      ensures Working(controller, active, i)
      ensures forall k :: 0 <= k < |controller.plan.tasks| ==>
        controller.plan.tasks[k] in old(controller.plan.tasks) || fresh(controller.plan.tasks[k])
      ensures controller.View() == OnTask(old(controller.View()), i, input).s
    {
      hide Begun, PlanModel.Intervene;
      ghost var before := controller.View();
      var _ := controller.BeginTask(active, input.inferred, i);
      ghost var begun := Begun(before, i, input.inferred);
      assert controller.View() == begun && begun.plan.tasks[i] == active.Rec();
      var due := controller.InterventionReason(active, input.thrashing);
      if due {
        controller.Intervene(active, i);
      }
    }

    method CutRound(controller: ExecutionController, active: Task?, chars: nat, ghost i: int)
      requires Working(controller, active, i)
      modifies job, active
      ensures Working(controller, active, i)
      ensures controller.View() == AfterCut(old(controller.View()), i, chars)
    {
      job.consecutiveCuts := job.consecutiveCuts + 1;
      if active != null {
        active.reasoningChars := active.reasoningChars + chars;
        controller.plan.OneTaskChanged(i);
      }
    }

    method StalledRound(controller: ExecutionController)
      requires controller.job == job
      modifies job
      ensures controller.View() == AfterStall(old(controller.View()))
    {
      if job.stallRecoveries >= MAX_STALL_RECOVERIES {
        job.status, job.reason := Errored, StallExhausted;
      } else {
        job.stallRecoveries := job.stallRecoveries + 1;
      }
    }

    method RecordCalls(controller: ExecutionController, tools: seq<string>)
      requires controller.job == job
      modifies job`toolsCalled
      ensures job.toolsCalled == old(job.toolsCalled) + tools
    {
      for k := 0 to |tools|
        invariant job.toolsCalled == old(job.toolsCalled) + tools[..k]
      {
        job.toolsCalled := job.toolsCalled + [tools[k]];
      }
    }

    method ToolsRound(controller: ExecutionController, active: Task?, o: Outcome, ghost i: int)
      requires Working(controller, active, i) && o.ToolRound?
      modifies job, active
      ensures Working(controller, active, i)
      ensures controller.View() == AfterTools(old(controller.View()), i, o)
    {
      hide PlanModel.TryAdvance, RoundRecordedTask, ToolsRanInTask;
      ghost var before := controller.View();
      RecordCalls(controller, o.tools);
      job.committed := job.committed || o.commits;
      assert controller.View() == before.(toolsCalled := before.toolsCalled + o.tools, committed := before.committed || o.commits);
      if active != null {
        Measure(controller, active, o, i);
      }
    }

    /** What the round did to the repository is recorded, and a task whose checks pass is finished. */
    method Measure(controller: ExecutionController, active: Task, o: Outcome, ghost i: int)
      requires Working(controller, active, i) && o.ToolRound?
      modifies job, active
      ensures Working(controller, active, i)
      ensures var s := old(controller.View());
        var recorded := s.plan.With(i, RoundRecordedTask(s.plan.tasks[i], o.progress, o.chars));
        controller.View() == Synced(s, PlanModel.TryAdvance(recorded, i, ToolsRanInTask(s, s.plan.tasks[i].id), o.checksPass))
    {
      hide PlanModel.TryAdvance, RoundRecordedTask;
      ghost var s := controller.View();
      assert active.id == s.plan.tasks[i].id;
      controller.RecordRound(active, o.progress, o.chars, i);
      ghost var recorded := s.plan.With(i, RoundRecordedTask(s.plan.tasks[i], o.progress, o.chars));
      assert controller.View() == s.(plan := recorded);
      controller.Sync();
      assert controller.View() == Synced(s, recorded);
      assert ToolsRanInTask(Synced(s, recorded), active.id) == ToolsRanInTask(s, active.id);
      var _ := controller.TryAdvance(active, o.checksPass, i);
    }

    /** The claim that the active task is finished: checked, recorded, and only then believed. */
    method Claim(controller: ExecutionController, active: Task, o: Outcome, ghost i: int) returns (settled: bool)
      requires Working(controller, active, i) && o.FinalAnswer?
      modifies job, controller.plan, controller.plan.tasks
      ensures Working(controller, active, i)
      ensures forall k :: 0 <= k < |controller.plan.tasks| ==>
        controller.plan.tasks[k] in old(controller.plan.tasks) || fresh(controller.plan.tasks[k])
      ensures controller.View() == Synced(old(controller.View()), Claimed(old(controller.plan.View()), i, o))
      ensures settled == (o.checksPass && !Blocks(Claimed(old(controller.plan.View()), i, o)))
    {
      hide CompletionClaim, Blocks;
      controller.RecordRound(active, o.progress, o.chars, i);
      settled := controller.OnCompletionClaim(active, o.checksPass, i);
      if settled {
        var blocked := controller.BlockingReason();
        settled := !blocked;
      }
    }

    method Answered(controller: ExecutionController, active: Task?, o: Outcome, ghost i: int)
      requires Working(controller, active, i) && o.FinalAnswer?
      modifies job, controller.plan, controller.plan.tasks
      ensures Working(controller, active, i)
      ensures forall k :: 0 <= k < |controller.plan.tasks| ==>
        controller.plan.tasks[k] in old(controller.plan.tasks) || fresh(controller.plan.tasks[k])
      ensures controller.View() == AfterAnswer(old(controller.View()), contract, i, o)
    {
      hide CompletionClaim, ContractMet, Blocks;
      ghost var before := controller.View();
      if active != null {
        assert active.Rec() == before.plan.tasks[i];
        if active.status != Completed && active.status != Failed {
          var settled := Claim(controller, active, o, i);
          if !settled { return; }
        }
      }
      var passed := ValidateCompletion();
      if !passed { return; }
      if !o.claimsHold { return; }
      job.status := Done;
    }

    method RunRound(controller: ExecutionController, round: int, input: RoundInput)
      requires Working(controller, null, -1)
      modifies job, controller.plan, controller.plan.tasks
      ensures Working(controller, null, -1)
      ensures forall k :: 0 <= k < |controller.plan.tasks| ==>
        controller.plan.tasks[k] in old(controller.plan.tasks) || fresh(controller.plan.tasks[k])
      ensures controller.View() == Round(old(controller.View()), contract, round, input)
    {
      hide AtTop, AfterRound;
      var go, active, i := TopOfRound(controller, round, input);
      if go {
        FinishRound(controller, active, input.outcome, i);
      }
    }

    method FinishRound(controller: ExecutionController, active: Task?, o: Outcome, ghost i: int)
      requires Working(controller, active, i)
      modifies job, controller.plan, controller.plan.tasks
      ensures Working(controller, active, i)
      ensures forall k :: 0 <= k < |controller.plan.tasks| ==>
        controller.plan.tasks[k] in old(controller.plan.tasks) || fresh(controller.plan.tasks[k])
      ensures controller.View() == AfterRound(old(controller.View()), contract, i, o)
    {
      hide AfterCut, AfterTools, AfterAnswer, AfterStall;
      match o {
        case CharacterCut(chars) => CutRound(controller, active, chars, i);
        case WallClockCut(chars) => CutRound(controller, active, chars, i);
        case Stall => StalledRound(controller);
        case CancelledMidStream =>
          job.cancelled := true;
          job.status := Done;
        case ToolRound(_, _, _, _, _) => ToolsRound(controller, active, o, i);
        case FinalAnswer(_, _, _, _) => Answered(controller, active, o, i);
      }
    }

    method Enter(built: PlanRec) returns (controller: ExecutionController)
      requires WellFormed(if job.planned then job.saved else built)
      modifies job
      ensures Working(controller, null, -1) && fresh(controller.plan) && fresh(controller.plan.tasks)
      ensures Inv(controller.View())
      ensures controller.View() == JobRuns.Entered(JobLoop.Planned(old(job.Rec(job.saved)), built))
    {
      hide Inv, WellFormed;
      ghost var before := job.Rec(job.saved);
      if !job.planned {
        job.planned := true;
        job.saved := built;
        if built.tasks != [] {
          job.roundBudget := if job.roundBudget < |built.tasks| * 4 then |built.tasks| * 4 else job.roundBudget;
        }
      }
      assert UniqueIds(job.saved.tasks) by { ShapeIsUnique(job.saved); }
      var plan := new ExecutionPlan.FromDict(job.saved);
      controller := new ExecutionController(job, plan);
      EnteredKeepsShape(controller.View());
    }

    /** One entry to the loop: the plan is built if there is none, loaded from what the job saved, and
        worked on round by round until the job stops or its budget is spent. */
    method Loop(built: PlanRec, resuming: bool, inputs: JobLoop.Oracle, k: nat)
        returns (controller: ExecutionController, rounds: nat)
      requires WellFormed(if job.planned then job.saved else built)
      modifies job
      ensures Working(controller, null, -1) && fresh(controller.plan)
      ensures Inv(controller.View())
      ensures var r := JobLoop.Loop(old(job.Rec(job.saved)), contract, built, resuming, inputs, k);
        controller.View() == r.s && rounds == |r.events|
    {
      hide Round, Inv, WellFormed, JobLoop.Rounds;
      controller := Enter(built);
      ghost var entered := controller.View();
      rounds := Rounds(controller, if resuming then job.round + 1 else 0, inputs, k);
    }

    method Rounds(controller: ExecutionController, start: int, inputs: JobLoop.Oracle, k: nat) returns (rounds: nat)
      requires Working(controller, null, -1) && Inv(controller.View())
      modifies job, controller.plan, controller.plan.tasks
      ensures Working(controller, null, -1) && Inv(controller.View())
      ensures var r := JobLoop.Rounds(old(controller.View()), contract, start, old(job.roundBudget), inputs, k);
        controller.View() == r.s && rounds == |r.events|
    {
      hide *;
      var round, limit := start, job.roundBudget;
      ghost var all := JobLoop.Rounds(controller.View(), contract, start, limit, inputs, k);
      rounds := 0;
      RemainingAll(all);
      while round < limit
        invariant Working(controller, null, -1) && Inv(controller.View())
        invariant forall i :: 0 <= i < |controller.plan.tasks| ==>
          controller.plan.tasks[i] in old(controller.plan.tasks) || fresh(controller.plan.tasks[i])
        invariant Remaining(all, rounds, JobLoop.Rounds(controller.View(), contract, round, limit, inputs, k + rounds))
      {
        ghost var now, at := controller.View(), k + rounds;
        OneRound(now, contract, round, limit, inputs, at);
        var running := Step(controller, round, inputs(k + rounds));
        ghost var next := controller.View();
        ghost var rest := JobLoop.Rounds(now, contract, round, limit, inputs, at);
        rounds := rounds + 1;
        if !running {
          RemainingDone(all, rounds - 1, rest);
          return;
        }
        round := round + 1;
        RemainingStep(all, rounds - 1, rest, JobLoop.Rounds(next, contract, round, limit, inputs, at + 1));
        assert at + 1 == k + rounds;
      }
      OutOfBudget(controller.View(), contract, round, limit, inputs, k + rounds);
      RemainingDone(all, rounds, JobLoop.Rounds(controller.View(), contract, round, limit, inputs, k + rounds));
      Exhausted(controller);
      rounds := rounds + 1;
    }

    method Step(controller: ExecutionController, round: int, input: RoundInput) returns (running: bool)
      requires Working(controller, null, -1) && Inv(controller.View())
      modifies job, controller.plan, controller.plan.tasks
      ensures Working(controller, null, -1) && Inv(controller.View())
      ensures forall k :: 0 <= k < |controller.plan.tasks| ==>
        controller.plan.tasks[k] in old(controller.plan.tasks) || fresh(controller.plan.tasks[k])
      ensures controller.View() == Round(old(controller.View()), contract, round, input)
      ensures running == controller.View().status.Running?
    {
      hide Round, Inv;
      KeepsShape(controller.View(), contract, round, input);
      RunRound(controller, round, input);
      running := job.status == Running;
    }

    method Exhausted(controller: ExecutionController)
      requires Working(controller, null, -1) && Inv(controller.View())
      modifies job
      ensures Working(controller, null, -1) && Inv(controller.View())
      ensures controller.View() == old(controller.View()).(status := Errored, reason := OutOfRounds)
    {
      hide Inv;
      ghost var last := controller.View();
      job.status, job.reason := Errored, OutOfRounds;
      SamePlans(last, controller.View());
    }

    /** The whole run: the loop is re-entered while it stopped for a mechanical reason and automatic
        continuations are left. */
    method Run(built: PlanRec, resuming: bool, inputs: JobLoop.Oracle) returns (controller: ExecutionController)
      requires WellFormed(if job.planned then job.saved else built)
      modifies job
      ensures Working(controller, null, -1) && Inv(controller.View())
      ensures controller.View() ==
        JobLoop.RunFrom(old(job.Rec(job.saved)), contract, built, resuming, inputs, 0).s
    {
      hide JobLoop.Loop, JobLoop.RunFrom, Inv, WellFormed;
      ghost var before := job.Rec(job.saved);
      var again, k := resuming, 0;
      var investigative := contract.intent.Investigative() && contract.requiredTools == [];
      var cap := if investigative then JobRuns.MAX_AUTO_CONTINUES_INVESTIGATIVE else JobRuns.MAX_AUTO_CONTINUES;
      while true
        invariant WellFormed(if job.planned then job.saved else built)
        invariant JobLoop.RunFrom(before, contract, built, resuming, inputs, 0).s
          == JobLoop.RunFrom(job.Rec(job.saved), contract, built, again, inputs, k).s
        decreases cap - job.autoContinues
      {
        ghost var s := job.Rec(job.saved);
        JobLoop.LoopKeepsCounters(s, contract, built, again, inputs, k);
        var rounds;
        controller, rounds := Loop(built, again, inputs, k);
        LastEntry(s, controller.View(), contract, built, again, inputs, k);
        if job.status != Errored || (job.reason != OutOfRounds && job.reason != StallExhausted) || job.autoContinues >= cap {
          return;
        }
        ghost var first := controller.View();
        SavedShape(first);
        NextEntry(s, first, contract, built, again, inputs, k);
        Continue();
        again, k := true, k + rounds;
      }
    }

    /** The user's Continue: refused unless the job stopped for one of the four reasons that can be
        continued; after a plan gave up, its saved tasks are reopened. */
    method ContinueJob() returns (continued: bool)
      requires WellFormed(job.saved)
      modifies job
      ensures var s := old(job.Rec(job.saved));
        && continued == (JobRuns.CanResume(s) || JobRuns.CanRestart(s))
        && job.Rec(job.saved) ==
             if JobRuns.CanRestart(s) then JobRuns.Apply(s, contract, JobRuns.Restart)
             else JobRuns.Apply(s, contract, JobRuns.Resume(false))
      ensures WellFormed(job.saved)
    {
      hide WellFormed, Restarted;
      if job.status != Errored || job.reason == NoReason { return false; }
      if job.reason == PlanBlocked || job.reason == TasksFailed {
        ReopenSaved();
        job.roundBudget := job.roundBudget + MAX_ROUNDS;
      } else if job.reason == OutOfRounds {
        job.roundBudget := job.roundBudget + MAX_ROUNDS;
      } else {
        job.stallRecoveries := 0;
      }
      job.status, job.reason := Running, NoReason;
      job.autoContinues := 0;
      job.cancelled := false;
      return true;
    }

    method ReopenSaved()
      requires WellFormed(job.saved)
      modifies job`saved
      ensures job.saved == Restarted(old(job.saved)) && WellFormed(job.saved)
    {
      hide WellFormed, Restarted;
      ShapeIsUnique(job.saved);
      var plan := new ExecutionPlan.FromDict(job.saved);
      plan.Reopen();
      job.saved := plan.ToDict();
      JobRuns.RestartedKeepsShape(old(job.saved));
    }

    method Continue()
      requires job.status == Errored && (job.reason == OutOfRounds || job.reason == StallExhausted)
      modifies job
      ensures job.saved == old(job.saved)
      ensures job.Rec(job.saved) == JobLoop.AutoContinued(old(job.Rec(job.saved)))
    {
      job.autoContinues := job.autoContinues + 1;
      job.status := Running;
      if job.reason == OutOfRounds {
        job.roundBudget := job.roundBudget + MAX_ROUNDS;
      } else {
        job.stallRecoveries := 0;
      }
      job.reason := NoReason;
    }
  }

  lemma LastEntry(s: JobRec, first: JobRec, contract: Contract, built: PlanRec, resuming: bool, inputs: JobLoop.Oracle, k: nat)
    requires first == JobLoop.Loop(s, contract, built, resuming, inputs, k).s
    ensures !JobLoop.AutoContinues(first, contract) ==> JobLoop.RunFrom(s, contract, built, resuming, inputs, k).s == first
  {
    hide JobLoop.Loop;
  }

  /** What is left of a run after an entry that is continued, on the job as it was saved. */
  lemma NextEntry(s: JobRec, first: JobRec, contract: Contract, built: PlanRec, resuming: bool, inputs: JobLoop.Oracle, k: nat)
    requires first == JobLoop.Loop(s, contract, built, resuming, inputs, k).s && JobLoop.AutoContinues(first, contract)
    ensures var n := |JobLoop.Loop(s, contract, built, resuming, inputs, k).events|;
      JobLoop.RunFrom(s, contract, built, resuming, inputs, k).s
        == JobLoop.RunFrom(JobLoop.AutoContinued(first.(plan := first.saved)), contract, built, true, inputs, k + n).s
  {
    hide JobLoop.Loop;
    var n := |JobLoop.Loop(s, contract, built, resuming, inputs, k).events|;
    assert JobLoop.AutoContinued(first.(plan := first.saved)) == JobLoop.AutoContinued(first).(plan := first.saved);
    RunIgnoresPlan(JobLoop.AutoContinued(first), first.saved, contract, built, inputs, k + n);
  }

  lemma SavedShape(s: JobRec)
    requires Inv(s)
    ensures WellFormed(s.saved)
  {
  }

  /** The loop loads the saved plan, so what the last entry was working on does not matter. */
  lemma RunIgnoresPlan(s: JobRec, p: PlanRec, contract: Contract, built: PlanRec, inputs: JobLoop.Oracle, k: nat)
    ensures JobLoop.RunFrom(s.(plan := p), contract, built, true, inputs, k) == JobLoop.RunFrom(s, contract, built, true, inputs, k)
  {
    hide JobLoop.Rounds;
    assert JobLoop.Loop(s.(plan := p), contract, built, true, inputs, k) == JobLoop.Loop(s, contract, built, true, inputs, k);
  }

  /** After `rounds` events, `rest` is what is left of `all`. */
  ghost predicate Remaining(all: JobLoop.Trace, rounds: nat, rest: JobLoop.Trace) {
    all.s == rest.s && |all.events| == rounds + |rest.events|
  }

  lemma RemainingAll(all: JobLoop.Trace)
    ensures Remaining(all, 0, all)
  {
  }

  lemma RemainingStep(all: JobLoop.Trace, rounds: nat, rest: JobLoop.Trace, next: JobLoop.Trace)
    requires Remaining(all, rounds, rest) && Remaining(rest, 1, next)
    ensures Remaining(all, rounds + 1, next)
  {
  }

  lemma RemainingDone(all: JobLoop.Trace, rounds: nat, rest: JobLoop.Trace)
    requires Remaining(all, rounds, rest) && |rest.events| == 1
    ensures all.s == rest.s && |all.events| == rounds + 1
  {
  }

  lemma OneRound(s: JobRec, contract: Contract, round: int, limit: int, inputs: JobLoop.Oracle, k: nat)
    requires round < limit
    ensures var all := JobLoop.Rounds(s, contract, round, limit, inputs, k); var s' := Round(s, contract, round, inputs(k));
      if s'.status.Running? then Remaining(all, 1, JobLoop.Rounds(s', contract, round + 1, limit, inputs, k + 1))
      else all.s == s' && |all.events| == 1
  {
    hide Round;
  }

  lemma OutOfBudget(s: JobRec, contract: Contract, round: int, limit: int, inputs: JobLoop.Oracle, k: nat)
    requires round >= limit
    ensures var all := JobLoop.Rounds(s, contract, round, limit, inputs, k);
      all.s == s.(status := Errored, reason := OutOfRounds) && |all.events| == 1
  {
  }

  lemma ShapeIsUnique(p: PlanRec)
    requires WellFormed(p)
    ensures UniqueIds(p.tasks)
  {
  }

  lemma EnteredKeepsShape(s: JobRec)
    requires s.plan == s.saved && WellFormed(s.plan)
    ensures Inv(s)
  {
    JobRuns.LagsReflexive(s.plan);
  }

  lemma SamePlans(s: JobRec, s': JobRec)
    requires Inv(s) && s'.plan == s.plan && s'.saved == s.saved
    ensures Inv(s')
  {
  }

  lemma KeepsShape(s: JobRec, contract: Contract, round: int, input: RoundInput)
    requires Inv(s)
    ensures Inv(Round(s, contract, round, input))
  {
    RoundKeeps(s, contract, round, input);
  }

  /** A new job from start to end: it stops, for a reason that is not continued automatically, and the plan
      it leaves is never stuck. */
  method RunNewJob(contract: Contract, built: PlanRec, inputs: JobLoop.Oracle) returns (controller: ExecutionController)
    requires WellFormed(built)
    ensures var r := JobLoop.RunFrom(JobLoop.NewJob, contract, built, false, inputs, 0); var s := controller.View();
      && s == r.s && !s.status.Running? && !JobLoop.AutoContinues(s, contract)
      && WellFormed(s.plan) && !IsStuck(s.plan)
  {
    hide WellFormed, IsStuck, JobLoop.RunFrom;
    var job := new Job();
    var manager := new JobManager(job, contract);
    controller := manager.Run(built, false, inputs);
    ghost var entered := JobRuns.Entered(JobLoop.Planned(JobLoop.NewJob, built));
    ghost var events := JobLoop.RunFrom(JobLoop.NewJob, contract, built, false, inputs, 0).events;
    JobLoop.RunIsEvents(JobLoop.NewJob, contract, built, false, inputs, 0);
    JobRuns.LagsReflexive(built);
    JobRuns.RunsAreNeverStuck(entered, contract, events);
  }
}
