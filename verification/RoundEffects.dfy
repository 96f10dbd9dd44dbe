/** What each part of a round does, field by field and in numbers: the job's counters, the verdicts at its top
    and its end, and the task being worked on. */
module RoundEffects {
  import opened PlanModel
  import opened JobModel
  import opened JobRuns
  import opened JobLoop
  import opened JobGates
  import opened LegalRuns
  import opened Interventions

  // ---- the task being worked on ----

  /** What no round changes about a task. */
  predicate SameWork(t: TaskRec, u: TaskRec) {
    && u.id == t.id && u.objective == t.objective && u.dependsOn == t.dependsOn && u.isRecovery == t.isRecovery
    && u.requiredTools == t.requiredTools && u.expectedArtifacts == t.expectedArtifacts
  }

  /** The top of a round starts the task, with checks inferred if it has none, and intervenes if three rounds
      in a row made no progress, the rounds resemble each other, more than 120,000 characters were generated
      or twelve rounds were spent. The third intervention fails the task; each clears the counters. */
  lemma TopOfTask(t: TaskRec, input: RoundInput)
    requires t.status.Pending? || t.status.InProgress?
    ensures var u := TaskAtTop(t, input);
      var due := t.roundsWithoutProgress >= 3 || input.thrashing || t.reasoningChars > 120_000 || t.roundsSpent >= 12;
      && SameWork(t, u) && u.attempts == t.attempts && u.notes == t.notes
      && u.validators == (if t.status.Pending? && t.validators == [] then input.inferred else t.validators)
      && u.validation == (if t.status.Pending? then Unvalidated else t.validation)
      && u.interventions == t.interventions + (if due then 1 else 0)
      && u.roundsSpent == (if due then 0 else t.roundsSpent)
      && u.roundsWithoutProgress == (if due then 0 else t.roundsWithoutProgress)
      && u.reasoningChars == (if due then 0 else t.reasoningChars)
      && u.status == if due && t.interventions + 1 >= 3 then Failed else InProgress
  {
  }

  /** A round that is cut only charges its characters, a stalled or cancelled one nothing. A recorded one
      counts, with its characters, and breaks or extends the streak without progress; progress leaves a note,
      of which twelve are kept. A claim that passes completes the task; one that fails costs an attempt, and the
      third fails it. */
  lemma BodyOfTask(u: TaskRec, o: Outcome, advanced: bool)
    ensures var t := TaskAfter(u, o, advanced);
      var recorded := o.ToolRound? || (o.FinalAnswer? && !u.status.Completed? && !u.status.Failed?);
      var completed := (o.ToolRound? && advanced && u.status.InProgress?) || (recorded && o.FinalAnswer? && o.checksPass);
      var rejected := recorded && o.FinalAnswer? && !o.checksPass;
      && SameWork(u, t) && t.validators == u.validators && t.interventions == u.interventions
      && t.roundsSpent == u.roundsSpent + (if recorded then 1 else 0)
      && t.reasoningChars == u.reasoningChars + (if recorded || o.CharacterCut? || o.WallClockCut? then o.chars else 0)
      && t.roundsWithoutProgress ==
           (if completed || (recorded && o.progress) then 0 else u.roundsWithoutProgress + if recorded then 1 else 0)
      && t.notes == (if recorded && o.progress then (if u.notes >= 12 then 12 else u.notes + 1) else u.notes)
      && t.attempts == u.attempts + (if rejected then 1 else 0)
      && t.validation == (if completed then Passed else if rejected then Rejected else u.validation)
      && t.status == if completed then Completed else if rejected && u.attempts + 1 >= 3 then Failed else u.status
  {
  }

  /** Without a claim the task is completed exactly if its checks pass, it has some, none of them needs a build
      or a browser, and there was some work on it: progress, now or before, or a tool called since it began. */
  lemma AdvancedIff(s: JobRec, c: nat, o: Outcome)
    requires c < |s.plan.tasks| && s.plan.tasks[c].status.InProgress? && o.ToolRound?
    ensures var t, q := s.plan.tasks[c], AfterTools(s, c, o).plan;
      && |q.tasks| == |s.plan.tasks| && q.revisions == s.plan.revisions
      && (forall k :: 0 <= k < |s.plan.tasks| && k != c ==> q.tasks[k] == s.plan.tasks[k])
      && (q.tasks[c].status.Completed? <==>
            && o.checksPass && t.validators != [] && "renders_cleanly" !in t.validators && "no_build_errors" !in t.validators
            && (o.progress || t.notes > 0
                || |s.toolsCalled + o.tools| > if t.id in s.toolOffsets then s.toolOffsets[t.id] else 0))
  {
    hide TryAdvance;
    var r := RoundRecordedTask(s.plan.tasks[c], o.progress, o.chars);
    var s1 := s.(toolsCalled := s.toolsCalled + o.tools, committed := s.committed || o.commits);
    AdvancesIff(s.plan.With(c, r), c, ToolsRanInTask(s1, s.plan.tasks[c].id), o.checksPass);
  }

  // ---- the job ----

  /** What has been called before a task begins does not count as work on it. */
  lemma BegunMarks(s: JobRec, c: nat, inferred: seq<string>)
    requires c < |s.plan.tasks|
    ensures var t, s' := s.plan.tasks[c], Begun(s, c, inferred);
      if t.status.InProgress? then s' == s
      else
        && s'.saved == s'.plan && s'.toolsCalled == s.toolsCalled
        && t.id in s'.toolOffsets
        && s'.toolOffsets[t.id] == (if t.id in s.toolOffsets then s.toolOffsets[t.id] else |s.toolsCalled|)
        && s'.toolOffsets.Keys == s.toolOffsets.Keys + {t.id}
        && forall id :: id in s.toolOffsets ==> s'.toolOffsets[id] == s.toolOffsets[id]
  {
  }

  /** The job's own record of a round: calls, commitment, cuts and stalls are counted; two stalls are recovered
      from and the third stops the job. */
  lemma BodyOfJob(s: JobRec, contract: Contract, active: int, o: Outcome)
    requires active < |s.plan.tasks| && s.status.Running?
    ensures var s' := AfterRound(s, contract, active, o);
      && s'.toolsCalled == s.toolsCalled + (if o.ToolRound? then o.tools else [])
      && s'.committed == (s.committed || (o.ToolRound? && o.commits))
      && s'.consecutiveCuts == s.consecutiveCuts + (if o.CharacterCut? || o.WallClockCut? then 1 else 0)
      && s'.stallRecoveries == s.stallRecoveries + (if o.Stall? && s.stallRecoveries < 2 then 1 else 0)
      && s'.reason == (if o.Stall? && s.stallRecoveries >= 2 then StallExhausted else s.reason)
      && (s'.status.Errored? <==> o.Stall? && s.stallRecoveries >= 2)
  {
    hide Claimed, TryAdvance, ContractMet, Blocks, ToolsRanInTask;
    assert s.toolsCalled + [] == s.toolsCalled;
  }

  /** Nothing else of it changes after the top of the round. */
  lemma BodyLeaves(s: JobRec, contract: Contract, active: int, o: Outcome)
    requires active < |s.plan.tasks|
    ensures var s' := AfterRound(s, contract, active, o);
      && s'.cancelled == (s.cancelled || o.CancelledMidStream?)
      && s'.toolOffsets == s.toolOffsets && s'.planned == s.planned && s'.round == s.round
      && s'.roundBudget == s.roundBudget && s'.autoContinues == s.autoContinues
  {
    hide Claimed, TryAdvance, ContractMet, Blocks, ToolsRanInTask;
  }

  /** Only a round that is recorded for a task saves the plan; a round that is cut leaves the saved plan behind. */
  lemma BodySaves(s: JobRec, contract: Contract, active: int, o: Outcome)
    requires active < |s.plan.tasks|
    ensures var s' := AfterRound(s, contract, active, o);
      && (o.Stall? || o.CancelledMidStream? || active < 0 ==> s'.plan == s.plan)
      && (s'.saved == s.saved || s'.saved == s'.plan)
      && (active >= 0 && (o.ToolRound? || (o.FinalAnswer? && s.plan.tasks[active].status.InProgress?)) ==> s'.saved == s'.plan)
      && (o.CharacterCut? || o.WallClockCut? ==> s'.saved == s.saved)
  {
    hide Claimed, TryAdvance, ContractMet, Blocks, ToolsRanInTask;
  }

  /** A round gives up before the model is asked in two cases: all tasks failed, or all are over and some of
      them failed. */
  lemma StopsOverFailures(s: JobRec, contract: Contract, round: int, input: RoundInput)
    requires Inv(s) && s.status.Running? && s.reason == NoReason && !s.cancelled && !input.cancel
    ensures var r := Round(s, contract, round, input).reason; var tasks := s.plan.tasks;
      var over := forall k :: 0 <= k < |tasks| ==> tasks[k].status.Completed? || tasks[k].status.Failed?;
      && (r.PlanBlocked? <==> tasks != [] && forall k :: 0 <= k < |tasks| ==> tasks[k].status.Failed?)
      && (r.TasksFailed? <==>
            && over && (exists k :: 0 <= k < |tasks| && tasks[k].status.Failed?)
            && exists k :: 0 <= k < |tasks| && tasks[k].status.Completed?)
  {
    BlockedMeansAllFailed(s, contract, round, input);
    NeverStuck(s.plan);
    hide WellFormed, Current, Begun, Intervene, AfterRound;
    var top := AtTop(s, round, input);
    if top.Go? {
      RoundBodyNeverBlocks(top.s, contract, top.active, input.outcome);
    }
    assert WorkRemains(s.plan) || forall i :: 0 <= i < |s.plan.tasks| ==> s.plan.tasks[i].status.Terminal();
  }

  /** Cancelling ends the job before anything else is done. */
  lemma CancelledAtTop(s: JobRec, contract: Contract, round: int, input: RoundInput)
    requires s.cancelled || input.cancel
    ensures Round(s, contract, round, input) == s.(cancelled := true, status := Done)
  {
  }

  // ---- limits ----

  /** Until it commits to a direction the job may generate 40,000 characters a round; then as many while a task
      with artifacts is worked on, and otherwise 18,000. */
  lemma LimitInNumbers(s: JobRec, active: int)
    requires active < |s.plan.tasks|
    ensures RoundLimit(s, active) ==
      if s.committed && (active < 0 || s.plan.tasks[active].expectedArtifacts == []) then 18_000 else 40_000
  {
  }

  /** A job that only looks into something continues itself twice, any other twenty times. */
  lemma CapInNumbers(contract: Contract)
    ensures AutoCap(contract) ==
      if contract.requiredTools == []
         && (contract.intent.Analyze? || contract.intent.Search? || contract.intent.Explain? || contract.intent.Conversation?)
      then 2 else 20
  {
  }

  /** The first entry takes the plan that was built and sizes the budget for it, four rounds a task but not less
      than there were; later entries keep both. */
  lemma FirstEntry(s: JobRec, built: PlanRec)
    ensures var s', n := Planned(s, built), 4 * |built.tasks|;
      && s'.planned && s'.saved == (if s.planned then s.saved else built)
      && s'.roundBudget == (if !s.planned && n > s.roundBudget && n > 0 then n else s.roundBudget)
      && s' == s.(planned := true, saved := s'.saved, roundBudget := s'.roundBudget)
  {
  }
}
