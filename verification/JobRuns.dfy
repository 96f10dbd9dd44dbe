/** Whole runs of a job: any sequence of rounds, exhausted budgets, automatic continuations and user
    clicks on Continue, with every verdict and every way a round can end left open. */
module JobRuns {
  import opened PlanModel
  import opened PlanPotential
  import opened JobModel

  const MAX_AUTO_CONTINUES: nat := 20
  const MAX_AUTO_CONTINUES_INVESTIGATIVE: nat := 2

  /** What can happen to a job between two checkpoints. `Restart` is the user's Continue on a plan that
      gave up; `Resume` is every other continuation, automatic or not. */
  datatype Event = RoundAt(round: int, input: RoundInput) | Exhaust | Resume(automatic: bool) | Restart

  /** Entering the loop rebuilds the plan from what the job had saved. */
  function Entered(s: JobRec): JobRec {
    s.(plan := s.saved)
  }

  function Resumed(s: JobRec, automatic: bool): JobRec {
    var s1 := s.(autoContinues := if automatic then s.autoContinues + 1 else 0,
                 cancelled := automatic && s.cancelled, status := Running, reason := NoReason);
    Entered(if s.reason.OutOfRounds? then s1.(roundBudget := s.roundBudget + MAX_ROUNDS)
            else s1.(stallRecoveries := 0))
  }

  function Reopened(s: JobRec): JobRec {
    Entered(s.(saved := Restarted(s.saved), roundBudget := s.roundBudget + MAX_ROUNDS, autoContinues := 0,
               cancelled := false, status := Running, reason := NoReason))
  }

  predicate CanResume(s: JobRec) {
    s.status.Errored? && s.reason.Recoverable()
  }

  predicate CanRestart(s: JobRec) {
    s.status.Errored? && (s.reason.PlanBlocked? || s.reason.TasksFailed?)
  }

  function Apply(s: JobRec, contract: Contract, e: Event): JobRec {
    match e
    case RoundAt(r, input) => if s.status.Running? then Round(s, contract, r, input) else s
    case Exhaust => if s.status.Running? then s.(status := Errored, reason := OutOfRounds) else s
    case Resume(automatic) => if CanResume(s) then Resumed(s, automatic) else s
    case Restart => if CanRestart(s) then Reopened(s) else s
  }

  function After(s: JobRec, contract: Contract, events: seq<Event>): JobRec
    decreases |events|
  {
    if events == [] then s else After(Apply(s, contract, events[0]), contract, events[1..])
  }

  predicate EventPossible(s: JobRec, e: Event) {
    e.RoundAt? && s.status.Running? ==> Possible(s, e.round, e.input)
  }

  predicate RunPossible(s: JobRec, contract: Contract, events: seq<Event>)
    decreases |events|
  {
    events == [] || (EventPossible(s, events[0]) && RunPossible(Apply(s, contract, events[0]), contract, events[1..]))
  }

  function EventCount(s: JobRec, e: Event): nat {
    if e.RoundAt? && s.status.Running? then Counted(s, e.round, e.input) else 0
  }

  /** Rounds that ran with an active task and completed or were cut on characters. */
  function CountedRounds(s: JobRec, contract: Contract, events: seq<Event>): nat
    decreases |events|
  {
    if events == [] then 0
    else EventCount(s, events[0]) + CountedRounds(Apply(s, contract, events[0]), contract, events[1..])
  }

  function Resumes(events: seq<Event>): nat {
    if events == [] then 0 else (if events[0].Resume? then 1 else 0) + Resumes(events[1..])
  }

  // ---- shape ----

  lemma RestartedKeepsShape(p: PlanRec)
    requires WellFormed(p)
    ensures WellFormed(Restarted(p))
  {
    var q := Restarted(p);
    forall i | 0 <= i < |q.tasks| ensures HasIndexUpTo(q.tasks[i].id, |q.tasks|) && InBudget(q.tasks[i]) {
      assert HasIndexUpTo(p.tasks[i].id, |p.tasks|) && InBudget(p.tasks[i]);
    }
    forall i, d | 0 <= i < |q.tasks| && d in q.tasks[i].dependsOn ensures NamesEarlier(q.tasks, i, d) {
      assert NamesEarlier(p.tasks, i, d);
      var j :| 0 <= j < i && j < |p.tasks| && p.tasks[j].id == d;
      assert q.tasks[j].id == d;
    }
  }

  lemma LagsReflexive(p: PlanRec)
    ensures Lags(p, p)
  {
  }

  lemma ApplyKeepsInv(s: JobRec, contract: Contract, e: Event)
    requires Inv(s)
    ensures Inv(Apply(s, contract, e))
  {
    hide WellFormed, Round, Potential;
    match e {
      case RoundAt(r, input) => if s.status.Running? { RoundKeeps(s, contract, r, input); }
      case Restart => RestartedKeepsShape(s.saved);
      case _ =>
    }
  }

  /** No reachable plan is ever stuck: while any task is unfinished, one can be worked on. */
  lemma {:induction false} RunsAreNeverStuck(s: JobRec, contract: Contract, events: seq<Event>)
    requires Inv(s)
    ensures var p := After(s, contract, events).plan;
      WellFormed(p) && !IsStuck(p) && (WorkRemains(p) <==> Current(p) >= 0)
    decreases |events|
  {
    hide WellFormed, Apply, IsStuck, WorkRemains, Current;
    if events == [] {
      NeverStuck(s.plan);
    } else {
      ApplyKeepsInv(s, contract, events[0]);
      RunsAreNeverStuck(Apply(s, contract, events[0]), contract, events[1..]);
    }
  }

  lemma RoundBodyNeverBlocks(s: JobRec, contract: Contract, active: int, o: Outcome)
    requires active < |s.plan.tasks| && s.reason == NoReason
    ensures var r := AfterRound(s, contract, active, o).reason; !r.PlanBlocked? && !r.TasksFailed?
  {
  }

  /** So `plan_blocked` is only ever reported when every single task failed, and always then. */
  lemma BlockedMeansAllFailed(s: JobRec, contract: Contract, round: int, input: RoundInput)
    requires Inv(s) && s.reason == NoReason && !s.cancelled && !input.cancel
    ensures Round(s, contract, round, input).reason.PlanBlocked? <==>
      s.plan.tasks != [] && forall i :: 0 <= i < |s.plan.tasks| ==> s.plan.tasks[i].status.Failed?
  {
    NeverStuck(s.plan);
    hide WellFormed, Current, Begun, Intervene, AfterRound;
    var top := AtTop(s, round, input);
    if top.Go? {
      RoundBodyNeverBlocks(top.s, contract, top.active, input.outcome);
    }
    assert WorkRemains(s.plan) || forall i :: 0 <= i < |s.plan.tasks| ==> s.plan.tasks[i].status.Terminal();
  }

  // ---- continuing ----

  /** Only the user's Continue on a plan that gave up opens it again: every task that failed or was blocked is
      to be done once more, as if it had not been tried, and nothing else about the tasks changes. */
  lemma RestartReopens(s: JobRec, contract: Contract)
    requires s.status.Errored? && (s.reason.PlanBlocked? || s.reason.TasksFailed?)
    ensures var s' := Apply(s, contract, Restart);
      && s'.status.Running? && s'.reason.NoReason? && !s'.cancelled
      && s'.roundBudget == s.roundBudget + 10 && s'.autoContinues == 0 && s'.plan.revisions == 0
      && s'.plan == s'.saved && |s'.plan.tasks| == |s.saved.tasks|
      && SameProgress(s, s') && s'.stallRecoveries == s.stallRecoveries
    ensures var s' := Apply(s, contract, Restart);
      forall i :: 0 <= i < |s.saved.tasks| ==>
        var t, u := s.saved.tasks[i], s'.plan.tasks[i];
        if t.status.Failed? || t.status.Blocked? then
          && u.status.Pending? && u.validation.Unvalidated?
          && u.attempts == u.interventions == u.roundsSpent == u.roundsWithoutProgress == 0
          && u.id == t.id && u.objective == t.objective && u.dependsOn == t.dependsOn && u.isRecovery == t.isRecovery
          && u.requiredTools == t.requiredTools && u.expectedArtifacts == t.expectedArtifacts && u.validators == t.validators
          && u.reasoningChars == t.reasoningChars && u.notes == t.notes
        else u == t
  {
  }

  /** What the job has done so far. */
  predicate SameProgress(s: JobRec, s': JobRec) {
    && s'.planned == s.planned && s'.toolsCalled == s.toolsCalled && s'.toolOffsets == s.toolOffsets
    && s'.committed == s.committed && s'.consecutiveCuts == s.consecutiveCuts && s'.round == s.round
  }

  /** Every other continuation goes on with the saved plan as it is and grants what had run out: ten more rounds,
      or two more stalls. */
  lemma ResumeGrants(s: JobRec, contract: Contract, automatic: bool)
    requires s.status.Errored? && (s.reason.OutOfRounds? || s.reason.StallExhausted?)
    ensures var s' := Apply(s, contract, Resume(automatic));
      && s'.status.Running? && s'.reason.NoReason? && s'.plan == s'.saved == s.saved && SameProgress(s, s')
      && (if automatic then s'.autoContinues == s.autoContinues + 1 && s'.cancelled == s.cancelled
          else s'.autoContinues == 0 && !s'.cancelled)
      && (if s.reason.OutOfRounds? then s'.roundBudget == s.roundBudget + 10 && s'.stallRecoveries == s.stallRecoveries
          else s'.roundBudget == s.roundBudget && s'.stallRecoveries == 0)
  {
  }

  /** Nothing else is ever continued. */
  lemma OnlyStoppedContinues(s: JobRec, contract: Contract, automatic: bool)
    ensures !(s.status.Errored? && (s.reason.PlanBlocked? || s.reason.TasksFailed?)) ==> Apply(s, contract, Restart) == s
    ensures !(s.status.Errored? && (s.reason.OutOfRounds? || s.reason.StallExhausted?)) ==> Apply(s, contract, Resume(automatic)) == s
  {
  }

  lemma ReopenedHasWork(s: JobRec, contract: Contract, i: nat)
    requires Inv(s) && CanRestart(s) && i < |s.plan.tasks| && s.plan.tasks[i].status.Failed?
    ensures Current(Apply(s, contract, Restart).plan) >= 0
  {
    RestartReopens(s, contract);
    ApplyKeepsInv(s, contract, Restart);
    var p := Apply(s, contract, Restart).plan;
    assert s.saved.tasks[i].status == s.plan.tasks[i].status;
    hide Apply, WellFormed, Current;
    assert !p.tasks[i].status.Terminal();
    NeverStuck(p);
  }

  /** A job that stopped because tasks failed is not stopped for that again by its next round after Continue:
      it has a task to work on. */
  lemma RestartGoesOn(s: JobRec, contract: Contract, round: int, input: RoundInput, later: int, next: RoundInput)
    requires Inv(s) && s.status.Running? && s.reason == NoReason && !s.cancelled
    requires var r := Round(s, contract, round, input).reason; r.PlanBlocked? || r.TasksFailed?
    ensures var s' := Apply(Round(s, contract, round, input), contract, Restart);
      && s'.status.Running? && Current(s'.plan) >= 0
      && var r := Round(s', contract, later, next).reason; !r.PlanBlocked? && !r.TasksFailed?
  {
    var stopped := Round(s, contract, round, input);
    StoppedAtTop(s, contract, round, input);
    var i :| 0 <= i < |s.plan.tasks| && s.plan.tasks[i].status.Failed?;
    hide Round;
    ReopenedHasWork(stopped, contract, i);
    RestartReopens(stopped, contract);
    hide Apply;
    WorkIsTaken(Apply(stopped, contract, Restart), contract, later, next);
  }

  lemma StoppedAtTop(s: JobRec, contract: Contract, round: int, input: RoundInput)
    requires Inv(s) && s.reason == NoReason && !s.cancelled
    requires var r := Round(s, contract, round, input).reason; r.PlanBlocked? || r.TasksFailed?
    ensures var s' := Round(s, contract, round, input);
      Inv(s') && CanRestart(s') && s'.plan == s.plan && AnyFailed(s.plan)
  {
    BlockedMeansAllFailed(s, contract, round, input.(cancel := false));
    hide WellFormed, Current, Intervene, AfterRound;
    var top := AtTop(s, round, input);
    if top.Go? {
      RoundBodyNeverBlocks(top.s, contract, top.active, input.outcome);
    }
  }

  lemma WorkIsTaken(s: JobRec, contract: Contract, round: int, input: RoundInput)
    requires s.reason == NoReason && Current(s.plan) >= 0
    ensures var r := Round(s, contract, round, input).reason; !r.PlanBlocked? && !r.TasksFailed?
  {
    hide Current, Intervene, AfterRound;
    var top := AtTop(s, round, input);
    if top.Go? {
      RoundBodyNeverBlocks(top.s, contract, top.active, input.outcome);
    }
  }

  // ---- the sweep ----

  function NoRestart(events: seq<Event>): bool {
    forall e :: e in events ==> !e.Restart?
  }

  lemma LagsKeepsTerminal(saved: PlanRec, plan: PlanRec)
    requires Lags(saved, plan)
    ensures Progresses(plan, saved)
  {
    forall i | 0 <= i < |plan.tasks| && plan.tasks[i].status.Terminal()
      ensures HasTask(saved, plan.tasks[i].id, plan.tasks[i].status)
    {
      assert saved.tasks[i].id == plan.tasks[i].id && saved.tasks[i].status == plan.tasks[i].status;
    }
  }

  lemma ApplyKeepsSweep(s: JobRec, contract: Contract, e: Event)
    requires Inv(s) && BothSwept(s) && !e.Restart?
    ensures var s' := Apply(s, contract, e); BothSwept(s') && Progresses(s.plan, s'.plan)
  {
    hide WellFormed, Round, Potential, Swept, Progresses;
    ProgressesReflexive(s.plan);
    match e {
      case RoundAt(r, input) => if s.status.Running? { RoundKeeps(s, contract, r, input); }
      case Resume(_) => LagsKeepsTerminal(s.saved, s.plan);
      case _ =>
    }
  }

  /** Until the user restarts it, a plan is worked through from left to right: finished tasks, at most
      one started task, then pending ones; a finished task stays as it finished; every added task has
      consumed a revision, so the list grows by at most five; and no repair is ever repaired. */
  lemma {:induction false} RunsSweep(s: JobRec, contract: Contract, events: seq<Event>)
    requires Inv(s) && BothSwept(s) && NoRestart(events)
    ensures var p := After(s, contract, events).plan;
      && Swept(p) && KeepsTerminal(s.plan, p) && KeepsOriginals(s.plan, p)
      && |p.tasks| - |s.plan.tasks| == p.revisions - s.plan.revisions
      && p.revisions <= MAX_PLAN_REVISIONS
      && forall i :: 0 <= i < |p.tasks| ==> InBudget(p.tasks[i])
    decreases |events|
  {
    hide Apply, Swept, KeepsTerminal, InBudget, RepairsOriginals;
    if events == [] {
      ProgressesReflexive(s.plan);
    } else {
      var s1 := Apply(s, contract, events[0]);
      ApplyKeepsInv(s, contract, events[0]);
      ApplyKeepsSweep(s, contract, events[0]);
      RunsSweep(s1, contract, events[1..]);
      KeepsTerminalTransitive(s.plan, s1.plan, After(s, contract, events).plan);
    }
  }

  // ---- termination ----

  lemma LaggingTask(s: JobRec, k: nat)
    requires Inv(s) && k < |s.plan.tasks|
    ensures var t, u := s.plan.tasks[k], s.saved.tasks[k];
      if t.status.InProgress? then TaskPotential(t) <= TaskPotential(u) <= TaskPotential(t) + MAX_CUTS
      else TaskPotential(t) == TaskPotential(u)
  {
    hide UniqueIds, Numbered, DependenciesEarlier;
    assert InBudget(s.plan.tasks[k]);
  }

  /** Forgetting the cuts charged since the last save can give back at most one intervention's worth. */
  lemma SavedPotential(s: JobRec)
    requires Inv(s)
    ensures Potential(s.plan) <= Potential(s.saved) <= Potential(s.plan) + MAX_CUTS
  {
    var started := FindFirst(s.plan.tasks, (t: TaskRec) => t.status.InProgress?);
    assert OneStarted(s.plan.tasks);
    hide WellFormed, Total, TaskPotential;
    forall k | 0 <= k < |s.plan.tasks| && k != started
      ensures TaskPotential(s.plan.tasks[k]) == TaskPotential(s.saved.tasks[k])
    {
      LaggingTask(s, k);
    }
    if started >= 0 {
      LaggingTask(s, started);
      TotalSplit(s.plan.tasks, started);
      TotalSplit(s.saved.tasks, started);
      TotalPointwise(s.plan.tasks[..started], s.saved.tasks[..started]);
      TotalPointwise(s.plan.tasks[started + 1..], s.saved.tasks[started + 1..]);
    } else {
      TotalPointwise(s.plan.tasks, s.saved.tasks);
    }
  }

  lemma ApplySpends(s: JobRec, contract: Contract, e: Event)
    requires Inv(s) && EventPossible(s, e) && !e.Restart?
    ensures Potential(Apply(s, contract, e).plan) + EventCount(s, e)
      <= Potential(s.plan) + if e.Resume? then MAX_CUTS else 0
  {
    hide WellFormed, Round, Potential, Counted;
    match e {
      case RoundAt(r, input) => if s.status.Running? { RoundKeeps(s, contract, r, input); }
      case Resume(_) => SavedPotential(s);
      case _ =>
    }
  }

  lemma {:induction false} RunsSpendPotential(s: JobRec, contract: Contract, events: seq<Event>)
    requires Inv(s) && RunPossible(s, contract, events) && NoRestart(events)
    ensures Potential(After(s, contract, events).plan) + CountedRounds(s, contract, events)
      <= Potential(s.plan) + MAX_CUTS * Resumes(events)
    decreases |events|
  {
    hide WellFormed, Apply, Potential, EventCount;
    if events != [] {
      var s1 := Apply(s, contract, events[0]);
      ApplyKeepsInv(s, contract, events[0]);
      ApplySpends(s, contract, events[0]);
      RunsSpendPotential(s1, contract, events[1..]);
    }
  }

  /** Whatever the model, the tools and the validators do, a plan of n tasks is worked on for at most
      58 n + 100 counted rounds, plus 7 for every time the loop is re-entered. */
  lemma PlanTerminates(s: JobRec, contract: Contract, events: seq<Event>)
    requires Inv(s) && RunPossible(s, contract, events) && NoRestart(events)
    ensures CountedRounds(s, contract, events) <= 58 * |s.plan.tasks| + 100 + MAX_CUTS * Resumes(events)
  {
    hide WellFormed, Apply, Potential, After;
    RunsSpendPotential(s, contract, events);
    PotentialBounds(s.plan);
    FinalPotential(s, contract, events);
  }

  lemma {:induction false} FinalPotential(s: JobRec, contract: Contract, events: seq<Event>)
    requires Inv(s)
    ensures Potential(After(s, contract, events).plan) >= 0
    decreases |events|
  {
    hide WellFormed, Apply, Potential;
    if events == [] {
      PotentialBounds(s.plan);
    } else {
      ApplyKeepsInv(s, contract, events[0]);
      FinalPotential(Apply(s, contract, events[0]), contract, events[1..]);
    }
  }
}
