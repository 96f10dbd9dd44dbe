/** One job's round loop as a value: what a round does to the job, for every way a round can end.
    Validation results, thrashing verdicts, progress comparisons, cancellation and the model's own
    behaviour are inputs, so everything proved here holds whatever they are. */
module JobModel {
  import opened PlanModel
  import opened PlanPotential

  const PLANNING_CHARS: nat := 40_000
  const EXECUTION_CHARS: nat := 18_000
  const AUTHORING_CHARS: nat := PLANNING_CHARS
  const MAX_ROUNDS: nat := 10
  const MAX_STALL_RECOVERIES: nat := 2
  const DELEGATING_TOOLS: set<string> := {"delegate_task", "delegate_build"}
  const DELEGATABLE_TOOLS: set<string> :=
    {"write_file", "edit_file", "delete_file", "move_file", "create_directory", "run_command"}
  const MODIFY_TOOLS: set<string> := {"edit_file", "apply_patch", "write_file"}

  datatype Intent = Create | Modify | Delete | Run | Analyze | Search | Explain | Conversation {
    predicate Investigative() { Analyze? || Search? || Explain? || Conversation? }
  }

  datatype Contract = Contract(intent: Intent, requiredTools: seq<string>)

  datatype JobStatus = Running | Done | Errored

  datatype Reason = NoReason | OutOfRounds | StallExhausted | PlanBlocked | TasksFailed {
    predicate Recoverable() { OutOfRounds? || StallExhausted? }
  }

  /** `plan` is the plan the loop is working on; `saved` is the serialized plan on the job, which is
      what the next entry to the loop (and the checkpoint) will see. */
  datatype JobRec = JobRec(
    plan: PlanRec, saved: PlanRec, planned: bool, toolsCalled: seq<string>, toolOffsets: map<string, nat>,
    committed: bool, consecutiveCuts: nat, round: int, roundBudget: int, stallRecoveries: nat,
    autoContinues: nat, cancelled: bool, status: JobStatus, reason: Reason)

  /** How the streamed part of a round ended, with the characters it generated and the verdicts that
      are asked for afterwards. */
  datatype Outcome =
    | CharacterCut(chars: nat)
    | WallClockCut(chars: nat)
    | Stall
    | CancelledMidStream
    | ToolRound(tools: seq<string>, chars: nat, progress: bool, checksPass: bool, commits: bool)
    | FinalAnswer(chars: nat, progress: bool, checksPass: bool, claimsHold: bool)

  datatype RoundInput = RoundInput(cancel: bool, inferred: seq<string>, thrashing: bool, outcome: Outcome)

  // ---- the two completion gates ----

  function CreditedTools(contract: Contract, toolsCalled: seq<string>): set<string> {
    var called := set t | t in toolsCalled;
    var delegated := if called * DELEGATING_TOOLS != {} then called + DELEGATABLE_TOOLS else called;
    if contract.intent.Modify? && delegated * MODIFY_TOOLS != {} then delegated + MODIFY_TOOLS else delegated
  }

  /** `validate_completion`: every required tool was called, or is credited to a tool that was. */
  predicate ContractMet(contract: Contract, toolsCalled: seq<string>) {
    forall t :: t in contract.requiredTools ==> t in CreditedTools(contract, toolsCalled)
  }

  predicate Delegates(toolsCalled: seq<string>) {
    "delegate_task" in toolsCalled || "delegate_build" in toolsCalled
  }

  predicate Edits(toolsCalled: seq<string>) {
    "edit_file" in toolsCalled || "apply_patch" in toolsCalled || "write_file" in toolsCalled
  }

  /** Why a required tool counts as called: because it was; because it was handed to a worker, whose own
      calls are not seen; or because a modifying job made its edit with another of the editing tools. */
  predicate Accounted(contract: Contract, toolsCalled: seq<string>, tool: string) {
    || tool in toolsCalled
    || (Delegates(toolsCalled)
        && tool in {"write_file", "edit_file", "delete_file", "move_file", "create_directory", "run_command"})
    || (contract.intent.Modify? && (Edits(toolsCalled) || Delegates(toolsCalled))
        && tool in {"edit_file", "apply_patch", "write_file"})
  }

  /** The contract is met exactly if every required tool is accounted for in one of these ways. */
  lemma ContractMetIff(contract: Contract, toolsCalled: seq<string>)
    ensures ContractMet(contract, toolsCalled) <==> forall t :: t in contract.requiredTools ==> Accounted(contract, toolsCalled, t)
  {
    var called := set t | t in toolsCalled;
    var handed := called * DELEGATING_TOOLS;
    assert handed != {} <==> Delegates(toolsCalled) by {
      assert "delegate_task" in handed <==> "delegate_task" in toolsCalled;
      assert "delegate_build" in handed <==> "delegate_build" in toolsCalled;
    }
    var delegated := if Delegates(toolsCalled) then called + DELEGATABLE_TOOLS else called;
    assert delegated * MODIFY_TOOLS != {} <==> Edits(toolsCalled) || Delegates(toolsCalled) by {
      assert "edit_file" in MODIFY_TOOLS && "apply_patch" in MODIFY_TOOLS && "write_file" in MODIFY_TOOLS;
      assert forall t :: t in MODIFY_TOOLS ==> (t in delegated <==> t in delegated * MODIFY_TOOLS);
      assert "write_file" in DELEGATABLE_TOOLS;
    }
    forall t ensures t in CreditedTools(contract, toolsCalled) <==> Accounted(contract, toolsCalled, t) {
    }
  }

  /** So without delegation only a call counts as a call, except among the editing tools of a modifying job. */
  lemma UndelegatedContract(contract: Contract, toolsCalled: seq<string>)
    requires !Delegates(toolsCalled)
    ensures !contract.intent.Modify? ==>
      (ContractMet(contract, toolsCalled) <==> forall t :: t in contract.requiredTools ==> t in toolsCalled)
    ensures contract.intent.Modify? ==>
      (ContractMet(contract, toolsCalled) <==> forall t :: t in contract.requiredTools ==>
        t in toolsCalled || (Edits(toolsCalled) && t in {"edit_file", "apply_patch", "write_file"}))
  {
    hide ContractMet;
    ContractMetIff(contract, toolsCalled);
  }

  function Gated(s: JobRec, contract: Contract, claimsHold: bool): JobRec {
    if ContractMet(contract, s.toolsCalled) && claimsHold then s.(status := Done) else s
  }

  // ---- one round ----

  datatype Top = Stop(s: JobRec) | Go(s: JobRec, active: int)

  function Synced(s: JobRec, p: PlanRec): JobRec {
    s.(plan := p, saved := p)
  }

  function Begun(s: JobRec, i: nat, inferred: seq<string>): (s': JobRec)
    requires i < |s.plan.tasks|
    ensures |s'.plan.tasks| == |s.plan.tasks|
  {
    var t := s.plan.tasks[i];
    if t.status.InProgress? then s
    else
      Synced(s, s.plan.With(i, WithValidators(StartedTask(t), inferred)))
        .(toolOffsets := if t.id in s.toolOffsets then s.toolOffsets else s.toolOffsets[t.id := |s.toolsCalled|])
  }

  /** No task can be worked on: the plan is stuck, gave up on something, or is complete. */
  function WithoutTask(s: JobRec): (top: Top)
    ensures top.s.plan == s.plan && (top.Go? ==> top.active == -1)
  {
    if Blocks(s.plan) then Stop(s.(status := Errored, reason := PlanBlocked))
    else if AnyFailed(s.plan) then Stop(s.(status := Errored, reason := TasksFailed))
    else Go(s, -1)
  }

  function OnTask(s: JobRec, c: nat, input: RoundInput): (top: Top)
    requires c < |s.plan.tasks|
    ensures top.Go? && top.active == c && |top.s.plan.tasks| >= |s.plan.tasks|
  {
    var s' := Begun(s, c, input.inferred);
    Go(if InterventionDue(s'.plan.tasks[c], input.thrashing) then Synced(s', Intervene(s'.plan, c)) else s', c)
  }

  function SelectTask(s: JobRec, input: RoundInput): (top: Top)
    ensures top.Go? ==> -1 <= top.active < |top.s.plan.tasks|
    ensures top.Go? && top.active < 0 ==> Current(s.plan) < 0
  {
    var c := Current(s.plan);
    if s.plan.tasks == [] then Go(s, -1)
    else if c < 0 then WithoutTask(s)
    else OnTask(s, c, input)
  }

  /** Everything before the model is asked: cancellation, task selection, intervention. */
  function AtTop(s: JobRec, round: int, input: RoundInput): (top: Top)
    ensures top.Go? ==> -1 <= top.active < |top.s.plan.tasks|
    ensures top.Go? && top.active < 0 ==> Current(s.plan) < 0
  {
    var s1 := s.(cancelled := s.cancelled || input.cancel);
    if s1.cancelled then Stop(s1.(status := Done)) else SelectTask(s1.(round := round), input)
  }

  function AfterCut(s: JobRec, active: int, chars: nat): JobRec
    requires active < |s.plan.tasks|
  {
    var s1 := s.(consecutiveCuts := s.consecutiveCuts + 1);
    if active < 0 then s1
    else s1.(plan := s.plan.With(active, ChargedTask(s.plan.tasks[active], chars)))
  }

  function AfterStall(s: JobRec): JobRec {
    if s.stallRecoveries >= MAX_STALL_RECOVERIES then s.(status := Errored, reason := StallExhausted)
    else s.(stallRecoveries := s.stallRecoveries + 1)
  }

  predicate ToolsRanInTask(s: JobRec, id: string) {
    (if id in s.toolOffsets then s.toolOffsets[id] else 0) < |s.toolsCalled|
  }

  function AfterTools(s: JobRec, active: int, o: Outcome): JobRec
    requires active < |s.plan.tasks| && o.ToolRound?
  {
    var s1 := s.(toolsCalled := s.toolsCalled + o.tools, committed := s.committed || o.commits);
    if active < 0 then s1
    else
      var recorded := s.plan.With(active, RoundRecordedTask(s.plan.tasks[active], o.progress, o.chars));
      Synced(s1, TryAdvance(recorded, active, ToolsRanInTask(s1, s.plan.tasks[active].id), o.checksPass))
  }

  function Claimed(p: PlanRec, active: nat, o: Outcome): (q: PlanRec)
    requires active < |p.tasks| && o.FinalAnswer?
    ensures |q.tasks| >= |p.tasks|
  {
    CompletionClaim(p.With(active, RoundRecordedTask(p.tasks[active], o.progress, o.chars)), active, o.checksPass)
  }

  function AfterAnswer(s: JobRec, contract: Contract, active: int, o: Outcome): JobRec
    requires active < |s.plan.tasks| && o.FinalAnswer?
  {
    if active >= 0 && !s.plan.tasks[active].status.Terminal() then
      var s1 := Synced(s, Claimed(s.plan, active, o));
      if !o.checksPass || Blocks(s1.plan) then s1 else Gated(s1, contract, o.claimsHold)
    else Gated(s, contract, o.claimsHold)
  }

  function AfterRound(s: JobRec, contract: Contract, active: int, o: Outcome): JobRec
    requires active < |s.plan.tasks|
  {
    match o
    case CharacterCut(chars) => AfterCut(s, active, chars)
    case WallClockCut(chars) => AfterCut(s, active, chars)
    case Stall => AfterStall(s)
    case CancelledMidStream => s.(cancelled := true, status := Done)
    case ToolRound(_, _, _, _, _) => AfterTools(s, active, o)
    case FinalAnswer(_, _, _, _) => AfterAnswer(s, contract, active, o)
  }

  function Round(s: JobRec, contract: Contract, round: int, input: RoundInput): JobRec {
    var top := AtTop(s, round, input);
    if top.Stop? then top.s else AfterRound(top.s, contract, top.active, input.outcome)
  }

  /** Characters a round may generate before it is cut. */
  function RoundLimit(s: JobRec, active: int): nat
    requires active < |s.plan.tasks|
  {
    if !s.committed then PLANNING_CHARS
    else if active >= 0 && s.plan.tasks[active].expectedArtifacts != [] then AUTHORING_CHARS
    else EXECUTION_CHARS
  }

  /** A round is only cut on characters after it went over its limit. */
  predicate Possible(s: JobRec, round: int, input: RoundInput) {
    var top := AtTop(s, round, input);
    top.Go? && input.outcome.CharacterCut? ==> input.outcome.chars > RoundLimit(top.s, top.active)
  }

  /** 1 for a round that ran with an active task and completed or was cut on characters. */
  function Counted(s: JobRec, round: int, input: RoundInput): nat {
    var top := AtTop(s, round, input);
    if top.Go? && top.active >= 0 && (input.outcome.CharacterCut? || input.outcome.ToolRound? || input.outcome.FinalAnswer?)
    then 1 else 0
  }

  // ---- what every round keeps ----

  /** The saved plan may lag behind only in the characters charged to tasks by cut rounds. */
  ghost predicate Lags(saved: PlanRec, plan: PlanRec) {
    && |saved.tasks| == |plan.tasks| && saved.revisions == plan.revisions
    && forall i :: 0 <= i < |plan.tasks| ==>
      && saved.tasks[i] == plan.tasks[i].(reasoningChars := saved.tasks[i].reasoningChars)
      && saved.tasks[i].reasoningChars <= plan.tasks[i].reasoningChars
      && (plan.tasks[i].status.Pending? ==> saved.tasks[i] == plan.tasks[i])
  }

  ghost predicate Inv(s: JobRec) {
    WellFormed(s.plan) && WellFormed(s.saved) && Lags(s.saved, s.plan)
  }

  ghost predicate BothSwept(s: JobRec) {
    Swept(s.plan) && Swept(s.saved)
  }

  /** How the job's plan may change: terminal statuses stay, and every added task costs a revision. */
  ghost predicate Progresses(p: PlanRec, q: PlanRec) {
    && KeepsTerminal(p, q)
    && KeepsOriginals(p, q)
    && |q.tasks| >= |p.tasks|
    && |q.tasks| - q.revisions == |p.tasks| - p.revisions
  }

  lemma ProgressesTransitive(p: PlanRec, q: PlanRec, r: PlanRec)
    requires Progresses(p, q) && Progresses(q, r)
    ensures Progresses(p, r)
  {
    KeepsTerminalTransitive(p, q, r);
  }

  lemma ProgressesReflexive(p: PlanRec)
    ensures Progresses(p, p)
  {
    KeepsTerminalReflexive(p);
  }

  lemma StartedKeeps(p: PlanRec, i: nat, inferred: seq<string>)
    requires WellFormed(p) && i < |p.tasks| && p.tasks[i].status.Pending?
    requires forall k :: 0 <= k < |p.tasks| ==> !p.tasks[k].status.InProgress?
    ensures var q := p.With(i, WithValidators(StartedTask(p.tasks[i]), inferred));
      && WellFormed(q) && Progresses(p, q) && Potential(q) == Potential(p)
      && ((forall k :: 0 <= k < i ==> p.tasks[k].status.Terminal()) && Swept(p) ==> Swept(q))
  {
    hide Total, UniqueIds, Numbered, DependenciesEarlier, OneStarted;
    var u := WithValidators(StartedTask(p.tasks[i]), inferred);
    assert InBudget(p.tasks[i]);
    WithKeepsShape(p, i, u);
    PotentialWith(p, i, u);
  }

  lemma BegunKeeps(s: JobRec, inferred: seq<string>)
    requires Inv(s) && Current(s.plan) >= 0
    ensures var c := Current(s.plan); var s' := Begun(s, c, inferred);
      && Inv(s') && Progresses(s.plan, s'.plan) && (BothSwept(s) ==> BothSwept(s'))
      && s'.plan.tasks[c].status.InProgress? && Potential(s'.plan) == Potential(s.plan)
  {
    var c := Current(s.plan);
    CurrentWorks(s.plan);
    if BothSwept(s) {
      CurrentIsFirstUnfinished(s.plan);
    }
    hide Current, Potential, Swept, WellFormed, Progresses;
    if s.plan.tasks[c].status.InProgress? {
      ProgressesReflexive(s.plan);
    } else {
      StartedKeeps(s.plan, c, inferred);
    }
  }

  lemma IntervenedKeeps(p: PlanRec, i: nat)
    requires WellFormed(p) && i < |p.tasks| && p.tasks[i].status.InProgress?
    ensures var q := Intervene(p, i);
      && WellFormed(q) && Progresses(p, q) && (Swept(p) ==> Swept(q))
      && (q.tasks[i].status.Failed? || (q.tasks[i].status.InProgress? && !InterventionDue(q.tasks[i], false)))
  {
    assert InBudget(p.tasks[i]);
    var q := p.With(i, ForcedTask(p.tasks[i]));
    WithKeepsStarted(p, i, ForcedTask(p.tasks[i]));
    if q.tasks[i].interventions >= MAX_INTERVENTIONS_PER_TASK {
      RecoverKeepsShape(q, i);
      KeepsTerminalTransitive(p, q, Recover(q, i));
    }
  }

  /** At the top of a round the active task is either fit to be worked on or was just given up, and
      giving it up has already paid for the round. */
  lemma TopKeeps(s: JobRec, round: int, input: RoundInput)
    requires Inv(s)
    ensures var top := AtTop(s, round, input); var s' := top.s;
      && Inv(s') && Progresses(s.plan, s'.plan) && (BothSwept(s) ==> BothSwept(s'))
      && Potential(s'.plan) <= Potential(s.plan)
      && (top.Go? && top.active >= 0 ==>
            var t := s'.plan.tasks[top.active];
            if t.status.Failed? then Potential(s'.plan) < Potential(s.plan)
            else t.status.InProgress? && !InterventionDue(t, false))
  {
    hide Current, Potential, WellFormed, Swept, Begun, Intervene, Blocks, AnyFailed, Progresses;
    var s2 := s.(cancelled := s.cancelled || input.cancel, round := round);
    var c := Current(s2.plan);
    if !s2.cancelled && c >= 0 {
      BegunKeeps(s2, input.inferred);
      var s3 := Begun(s2, c, input.inferred);
      if InterventionDue(s3.plan.tasks[c], input.thrashing) {
        var q := Intervene(s3.plan, c);
        IntervenedKeeps(s3.plan, c);
        InterveneSpends(s3.plan, c);
        ProgressesTransitive(s.plan, s3.plan, q);
        assert Lags(q, q);
      }
    } else {
      ProgressesReflexive(s.plan);
    }
  }

  /** A cut is worth a unit as long as the task was within its limit. */
  lemma ChargedPotential(t: TaskRec, chars: nat)
    ensures TaskPotential(ChargedTask(t, chars)) <= TaskPotential(t)
    ensures t.status.InProgress? && chars >= SMALLEST_CUT && t.reasoningChars <= MAX_REASONING_CHARS_PER_TASK
      ==> TaskPotential(ChargedTask(t, chars)) < TaskPotential(t)
  {
  }

  lemma CutKeeps(s: JobRec, active: int, chars: nat)
    requires Inv(s) && active < |s.plan.tasks|
    requires active >= 0 ==> s.plan.tasks[active].status.InProgress? || s.plan.tasks[active].status.Terminal()
    ensures var s' := AfterCut(s, active, chars);
      && Inv(s') && Progresses(s.plan, s'.plan) && (BothSwept(s) ==> BothSwept(s'))
      && Potential(s'.plan) <= Potential(s.plan)
      && (active >= 0 && s.plan.tasks[active].status.InProgress? && chars >= SMALLEST_CUT
          && s.plan.tasks[active].reasoningChars <= MAX_REASONING_CHARS_PER_TASK
          ==> Potential(s'.plan) < Potential(s.plan))
  {
    hide Total, UniqueIds, Numbered, DependenciesEarlier, TaskPotential, KeepsTerminal, KeepsOriginals;
    ProgressesReflexive(s.plan);
    if active >= 0 {
      var t := s.plan.tasks[active];
      assert InBudget(t);
      ChargedPotential(t, chars);
      WithKeepsShape(s.plan, active, ChargedTask(t, chars));
      PotentialWith(s.plan, active, ChargedTask(t, chars));
    }
  }

  lemma ToolsKeep(s: JobRec, active: int, o: Outcome)
    requires Inv(s) && active < |s.plan.tasks| && o.ToolRound?
    requires active >= 0 ==>
      var t := s.plan.tasks[active]; t.status.Terminal() || (t.status.InProgress? && !InterventionDue(t, false))
    ensures var s' := AfterTools(s, active, o);
      && Inv(s') && Progresses(s.plan, s'.plan) && (BothSwept(s) ==> BothSwept(s'))
      && Potential(s'.plan) <= Potential(s.plan) - (if active >= 0 && s.plan.tasks[active].status.InProgress? then 1 else 0)
  {
    if active < 0 {
      ProgressesReflexive(s.plan);
      return;
    }
    var t := s.plan.tasks[active];
    assert InBudget(t);
    var u := RoundRecordedTask(t, o.progress, o.chars);
    RecordedKeeps(s.plan, active, o.progress, o.chars);
    var recorded := s.plan.With(active, u);
    var q := AfterTools(s, active, o).plan;
    hide Potential, WellFormed, Swept, Progresses, InBudget;
    if q != recorded {
      AdvancedKeeps(recorded, active);
      ProgressesTransitive(s.plan, recorded, q);
    }
    assert Lags(q, q);
  }

  /** A completed round on a task that is still within its limits costs at least one unit. */
  lemma RecordedKeeps(p: PlanRec, i: nat, progress: bool, chars: nat)
    requires WellFormed(p) && i < |p.tasks|
    requires var t := p.tasks[i]; t.status.Terminal() || (t.status.InProgress? && !InterventionDue(t, false))
    ensures var u := RoundRecordedTask(p.tasks[i], progress, chars); var q := p.With(i, u);
      && WellFormed(q) && Progresses(p, q) && (Swept(p) ==> Swept(q))
      && Potential(q) <= Potential(p) - (if p.tasks[i].status.InProgress? then 1 else 0)
      && InBudget(u) && u.status == p.tasks[i].status
  {
    hide Total, UniqueIds, Numbered, DependenciesEarlier;
    var t := p.tasks[i];
    assert InBudget(t);
    var u := RoundRecordedTask(t, progress, chars);
    WithKeepsShape(p, i, u);
    PotentialWith(p, i, u);
  }

  lemma AdvancedKeeps(p: PlanRec, i: nat)
    requires WellFormed(p) && i < |p.tasks| && p.tasks[i].status.InProgress?
    ensures var q := p.With(i, CompletedTask(p.tasks[i]));
      && WellFormed(q) && Progresses(p, q) && (Swept(p) ==> Swept(q)) && Potential(q) <= Potential(p)
  {
    hide Total, UniqueIds, Numbered, DependenciesEarlier, NamesEarlier;
    var t := p.tasks[i];
    assert InBudget(t);
    WithKeepsStarted(p, i, CompletedTask(t));
    PotentialWith(p, i, CompletedTask(t));
  }

  lemma RejectedKeeps(p: PlanRec, i: nat)
    requires WellFormed(p) && i < |p.tasks| && p.tasks[i].status.InProgress?
    ensures var q := p.With(i, ValidatedTask(p.tasks[i], false));
      && WellFormed(q) && Progresses(p, q) && (Swept(p) ==> Swept(q)) && Potential(q) <= Potential(p)
      && (Swept(p) ==> forall k :: i < k < |q.tasks| ==> q.tasks[k].status.Pending?)
  {
    hide Total, UniqueIds, Numbered, DependenciesEarlier;
    var t := p.tasks[i];
    assert InBudget(t);
    WithKeepsStarted(p, i, ValidatedTask(t, false));
    PotentialWith(p, i, ValidatedTask(t, false));
  }

  lemma ClaimKeeps(p: PlanRec, active: nat, o: Outcome)
    requires WellFormed(p) && active < |p.tasks| && o.FinalAnswer?
    requires p.tasks[active].status.InProgress? && !InterventionDue(p.tasks[active], false)
    ensures var q := Claimed(p, active, o);
      && WellFormed(q) && Progresses(p, q) && (Swept(p) ==> Swept(q))
      && Potential(q) < Potential(p)
      && (o.checksPass ==> q.tasks[active].status.Completed?)
  {
    RecordedKeeps(p, active, o.progress, o.chars);
    var recorded := p.With(active, RoundRecordedTask(p.tasks[active], o.progress, o.chars));
    var q := recorded.With(active, ValidatedTask(recorded.tasks[active], o.checksPass));
    hide Potential, WellFormed, Swept, Progresses, Recover;
    if o.checksPass {
      AdvancedKeeps(recorded, active);
    } else {
      RejectedKeeps(recorded, active);
    }
    ProgressesTransitive(p, recorded, q);
    if !o.checksPass && q.tasks[active].status.Failed? {
      RecoverKeepsJob(q, active);
      ProgressesTransitive(p, q, Recover(q, active));
    }
  }

  lemma RecoverKeepsJob(p: PlanRec, i: nat)
    requires WellFormed(p) && i < |p.tasks| && p.tasks[i].status.Failed?
    ensures var q := Recover(p, i);
      && WellFormed(q) && Progresses(p, q) && Potential(q) == Potential(p)
      && (Swept(p) && (forall k :: i < k < |p.tasks| ==> p.tasks[k].status.Pending?) ==> Swept(q))
  {
    hide Recover, WellFormed, Swept, Potential;
    RecoverKeepsShape(p, i);
    RecoverSpendsRevision(p, i);
  }

  /** Every round, however it ends, keeps the shape of the plan and spends one unit for itself. */
  lemma RoundKeeps(s: JobRec, contract: Contract, round: int, input: RoundInput)
    requires Inv(s)
    ensures var s' := Round(s, contract, round, input);
      && Inv(s') && Progresses(s.plan, s'.plan) && (BothSwept(s) ==> BothSwept(s'))
      && (Possible(s, round, input) ==> Potential(s'.plan) + Counted(s, round, input) <= Potential(s.plan))
  {
    hide Potential, WellFormed, Swept, Progresses, AtTop, Claimed, Blocks, ContractMet, AfterTools;
    TopKeeps(s, round, input);
    var top := AtTop(s, round, input);
    if top.Go? {
      var s1, active, o := top.s, top.active, input.outcome;
      var s' := Round(s, contract, round, input);
      ProgressesReflexive(s1.plan);
      match o {
        case CharacterCut(chars) => CutKeeps(s1, active, chars);
        case WallClockCut(chars) => CutKeeps(s1, active, chars);
        case ToolRound(_, _, _, _, _) => ToolsKeep(s1, active, o);
        case FinalAnswer(_, _, _, _) =>
          if active >= 0 && !s1.plan.tasks[active].status.Terminal() {
            ClaimKeeps(s1.plan, active, o);
            assert Lags(Claimed(s1.plan, active, o), Claimed(s1.plan, active, o));
          }
        case _ =>
      }
      ProgressesTransitive(s.plan, s1.plan, s'.plan);
    }
  }
}
