/** Runs the program can make that end in a job reported done although its plan is not, or not all well. */
module DoneRuns {
  import opened Ids
  import opened PlanModel
  import opened JobModel
  import opened JobRuns
  import opened JobLoop
  import opened LegalRuns
  import opened JobGates
  import opened Interventions
  import PlanBuilder

  /** A new job on the plan a builder makes of these entries. */
  function JobFor(entries: seq<PlanBuilder.Entry>, infer: PlanBuilder.Inference): Watched {
    NewWatched(PlanRec(PlanBuilder.Built(entries, infer), 0))
  }

  lemma BuiltIsNew(entries: seq<PlanBuilder.Entry>, infer: PlanBuilder.Inference)
    ensures NewPlan(PlanRec(PlanBuilder.Built(entries, infer), 0))
  {
    PlanBuilder.BuiltIsWellFormed(entries, infer);
    hide WellFormed, MakeTaskId, Slug, Decimal;
  }

  function CutAt(round: int, inferred: seq<string>, chars: nat): Event {
    RoundAt(round, RoundInput(false, inferred, false, CharacterCut(chars)))
  }

  /** The first `n` rounds, each cut after this many characters. */
  function Cuts(inferred: seq<string>, chars: nat, n: nat): seq<Event> {
    if n == 0 then [] else Cuts(inferred, chars, n - 1) + [CutAt(n - 1, inferred, chars)]
  }

  function Claim(round: int, inferred: seq<string>, checksPass: bool): Event {
    RoundAt(round, RoundInput(false, inferred, false, FinalAnswer(0, false, checksPass, true)))
  }

  /** Interventions on the first task, and characters charged to it since the last, after `n` such rounds. */
  function Level(chars: nat, n: nat): (nat, nat) {
    if n == 0 then (0, 0)
    else
      var before := Level(chars, n - 1);
      if before.1 > MAX_REASONING_CHARS_PER_TASK then (before.0 + 1, chars) else (before.0, before.1 + chars)
  }

  /** Round `r` is next, the first task is being worked on, and nothing but these has happened to the plan. */
  ghost predicate Forced(w: Watched, r: int, level: (nat, nat)) {
    && Inv(w.job) && w.job.status.Running? && !w.job.cancelled && w.job.toolsCalled == []
    && w.next == r && w.job.roundBudget >= MAX_ROUNDS
    && w.job.plan.tasks != [] && Current(w.job.plan) == 0 && w.job.plan.revisions == 0
    && ForcedFirst(w.job.plan.tasks[0], level)
    && forall k :: 0 < k < |w.job.plan.tasks| ==> w.job.plan.tasks[k].status.Pending?
  }

  predicate ForcedFirst(t: TaskRec, level: (nat, nat)) {
    !t.isRecovery && t.interventions == level.0 && t.reasoningChars == level.1 && t.roundsSpent == t.roundsWithoutProgress == 0
  }

  lemma NewJobIsForced(entries: seq<PlanBuilder.Entry>, infer: PlanBuilder.Inference)
    requires entries != []
    ensures Forced(JobFor(entries, infer), 0, (0, 0))
  {
    PlanBuilder.BuiltIsWellFormed(entries, infer);
    PlanBuilder.BuiltBegins(entries, infer);
    hide WellFormed, Current;
    LagsReflexive(JobFor(entries, infer).job.plan);
  }

  lemma StartedIsCurrent(p: PlanRec)
    requires p.tasks != [] && p.tasks[0].status.InProgress?
    ensures Current(p) == 0
  {
  }

  lemma RoundLimitIsSmall(s: JobRec, active: int)
    requires active < |s.plan.tasks|
    ensures RoundLimit(s, active) <= PLANNING_CHARS
  {
  }

  lemma CutTop(s: JobRec, r: int, inferred: seq<string>, chars: nat)
    requires Inv(s) && s.status.Running? && !s.cancelled && Current(s.plan) == 0
    requires InterventionDue(s.plan.tasks[0], false) ==> s.plan.tasks[0].interventions + 1 < MAX_INTERVENTIONS_PER_TASK
    ensures var top := AtTop(s, r, RoundInput(false, inferred, false, CharacterCut(chars)));
      var t := TaskAtTop(s.plan.tasks[0], RoundInput(false, inferred, false, CharacterCut(chars)));
      top.Go? && top.active == 0 && top.s.plan == s.plan.With(0, t) && t.status.InProgress?
  {
    var input := RoundInput(false, inferred, false, CharacterCut(chars));
    var p := Begun(s, 0, inferred).plan;
    ActiveTop(s, r, input);
    BegunTask(s, 0, inferred);
    BegunWith(s, 0, inferred);
    ThirdFails(p, 0);
    WithTwice(s.plan, 0, p.tasks[0], InterventionCounted(p.tasks[0]));
    hide Current, Begun, Intervene, Inv, WellFormed, AtTop;
  }

  /** Leaves the first task in this state, changes nothing else. */
  lemma CutRound(w: Watched, contract: Contract, r: int, inferred: seq<string>, chars: nat)
    requires Inv(w.job) && w.job.status.Running? && !w.job.cancelled && Current(w.job.plan) == 0
    requires w.next == r < w.job.roundBudget && chars > PLANNING_CHARS
    requires InterventionDue(w.job.plan.tasks[0], false) ==> w.job.plan.tasks[0].interventions + 1 < MAX_INTERVENTIONS_PER_TASK
    ensures Legal(w, contract, CutAt(r, inferred, chars))
    ensures var w', e := Seen(w, contract, CutAt(r, inferred, chars)), CutAt(r, inferred, chars);
      && w'.job.plan == w.job.plan.With(0, ChargedTask(TaskAtTop(w.job.plan.tasks[0], e.input), chars))
      && TaskAtTop(w.job.plan.tasks[0], e.input).status.InProgress?
      && w'.next == r + 1 && w'.job.roundBudget == w.job.roundBudget && w'.job.toolsCalled == w.job.toolsCalled
      && w'.job.status.Running? && !w'.job.cancelled && Inv(w'.job)
  {
    var e := CutAt(r, inferred, chars);
    var s := w.job;
    CutTop(s, r, inferred, chars);
    IdleTop(s, r, e.input);
    RoundKeepsCounters(s, contract, r, e.input);
    ApplyKeepsInv(s, contract, e);
    var top := AtTop(s, r, e.input);
    RoundLimitIsSmall(top.s, 0);
    hide Current, Inv, AtTop, RoundLimit, WindowAfter, WorkedAfter, TaskAtTop, InterventionDue;
    var t := TaskAtTop(s.plan.tasks[0], e.input);
    WithTwice(s.plan, 0, t, ChargedTask(t, chars));
  }

  lemma ForcedCut(w: Watched, contract: Contract, r: int, inferred: seq<string>, chars: nat, n: nat)
    requires Forced(w, r, Level(chars, n)) && r < MAX_ROUNDS && chars > PLANNING_CHARS
    requires Level(chars, n + 1).0 < MAX_INTERVENTIONS_PER_TASK
    ensures Legal(w, contract, CutAt(r, inferred, chars))
    ensures var w' := Seen(w, contract, CutAt(r, inferred, chars));
      Forced(w', r + 1, Level(chars, n + 1)) && |w'.job.plan.tasks| == |w.job.plan.tasks|
  {
    hide Current, Inv, Legal, Seen;
    NextLevel(chars, n);
    CutRound(w, contract, r, inferred, chars);
    StartedIsCurrent(Seen(w, contract, CutAt(r, inferred, chars)).job.plan);
  }

  lemma {:induction false} CutsForce(entries: seq<PlanBuilder.Entry>, infer: PlanBuilder.Inference, contract: Contract, inferred: seq<string>, chars: nat, n: nat)
    requires entries != [] && n <= MAX_ROUNDS && chars > PLANNING_CHARS && Level(chars, n).0 < MAX_INTERVENTIONS_PER_TASK
    ensures LegalRun(JobFor(entries, infer), contract, Cuts(inferred, chars, n))
    ensures var w := SeenAll(JobFor(entries, infer), contract, Cuts(inferred, chars, n));
      Forced(w, n, Level(chars, n)) && |w.job.plan.tasks| == |entries|
  {
    hide Forced, Seen, Legal;
    if n == 0 {
      NewJobIsForced(entries, infer);
    } else {
      CutsForce(entries, infer, contract, inferred, chars, n - 1);
      var longer := SeenThen(JobFor(entries, infer), contract, Cuts(inferred, chars, n - 1), CutAt(n - 1, inferred, chars));
      ForcedCut(SeenAll(JobFor(entries, infer), contract, Cuts(inferred, chars, n - 1)), contract, n - 1, inferred, chars, n - 1);
    }
  }

  lemma NextLevel(chars: nat, n: nat)
    ensures Level(chars, 0) == (0, 0)
    ensures var before := Level(chars, n);
      Level(chars, n + 1) == if before.1 > MAX_REASONING_CHARS_PER_TASK then (before.0 + 1, chars) else (before.0, before.1 + chars)
  {
  }

  lemma Levels()
    ensures Level(120_001, 3) == (2, 120_001) && Level(40_001, 9) == (2, 120_003)
  {
    hide Level;
    NextLevel(120_001, 0);
    NextLevel(120_001, 1);
    NextLevel(120_001, 2);
    NextLevel(40_001, 0);
    NextLevel(40_001, 1);
    NextLevel(40_001, 2);
    NextLevel(40_001, 3);
    NextLevel(40_001, 4);
    NextLevel(40_001, 5);
    NextLevel(40_001, 6);
    NextLevel(40_001, 7);
    NextLevel(40_001, 8);
  }

  lemma ForcedLeavesWork(w: Watched, r: int, level: (nat, nat))
    requires Forced(w, r, level)
    ensures var p := w.job.plan;
      RepairAllowed(p, p.tasks[0]) || (exists k :: 0 <= k < |p.tasks| && k != 0 && !p.tasks[k].status.Terminal())
  {
    var p := w.job.plan;
    if |p.tasks| == 1 {
      assert |RepairObjective(p.tasks[0])| > |p.tasks[0].objective|;
      assert RepairAllowed(p, p.tasks[0]);
    } else {
      assert !p.tasks[1].status.Terminal();
    }
  }

  lemma ClaimIsLegal(w: Watched, contract: Contract, r: int, inferred: seq<string>)
    requires w.job.status.Running? && w.next == r < w.job.roundBudget
    ensures Legal(w, contract, Claim(r, inferred, true))
  {
    hide Current, AtTop;
  }

  /** The next round abandons the task, and the model answers in prose. */
  lemma AbandonedRound(w: Watched, contract: Contract, r: int, level: (nat, nat))
    requires Forced(w, r, level) && r < MAX_ROUNDS && ContractMet(contract, [])
    requires level.0 == MAX_INTERVENTIONS_PER_TASK - 1 && level.1 > MAX_REASONING_CHARS_PER_TASK
    ensures Legal(w, contract, Claim(r, [], true))
    ensures var s' := Seen(w, contract, Claim(r, [], true)).job; ReportsDone(s') && WorkRemains(s'.plan)
  {
    var s, input := w.job, Claim(r, [], true).input;
    ClaimIsLegal(w, contract, r, []);
    ForcedLeavesWork(w, r, level);
    assert InterventionDue(s.plan.tasks[0], false);
    hide Current, Begun, Intervene, Inv, WellFormed, AtTop, AfterRound, ContractMet, RepairAllowed, WorkRemains, IsComplete, WindowAfter, WorkedAfter,
      InterventionDue, Legal;
    ActiveTop(s, r, input);
    IdleTop(s, r, input);
    BegunTask(s, 0, []);
    var top, p := AtTop(s, r, input), Begun(s, 0, []).plan;
    SameRepairs(s.plan, p, 0);
    AbandonedIsIncomplete(p, 0);
    assert forall k :: 0 < k < |p.tasks| ==> p.tasks[k] == s.plan.tasks[k];
    BodyDone(top.s, contract, top.active, input.outcome);
  }

  /** After these cuts one more round, answered in prose, and the job reports done with work left that was
      never started. */
  lemma CutsLeaveWork(entries: seq<PlanBuilder.Entry>, infer: PlanBuilder.Inference, contract: Contract, inferred: seq<string>, chars: nat, n: nat)
    requires entries != [] && n < MAX_ROUNDS && chars > PLANNING_CHARS && ContractMet(contract, [])
    requires Level(chars, n).0 == MAX_INTERVENTIONS_PER_TASK - 1 && Level(chars, n).1 > MAX_REASONING_CHARS_PER_TASK
    ensures var es := Cuts(inferred, chars, n) + [Claim(n, [], true)]; var w := SeenAll(JobFor(entries, infer), contract, es);
      LegalRun(JobFor(entries, infer), contract, es) && ReportsDone(w.job) && WorkRemains(w.job.plan)
  {
    CutsForce(entries, infer, contract, inferred, chars, n);
    AbandonedRound(SeenAll(JobFor(entries, infer), contract, Cuts(inferred, chars, n)), contract, n, Level(chars, n));
    hide *;
    var longer := SeenThen(JobFor(entries, infer), contract, Cuts(inferred, chars, n), Claim(n, [], true));
  }

  /** Three interventions abandon the first task; if the model answers in prose in the third, the job reports
      done with work left. This happens to every plan that a builder can make, under every contract that
      asks for no tool, in the fourth round at the earliest; in the tenth if every round is cut as soon as
      it is over its limit. */
  lemma DoneWithWorkLeft(entries: seq<PlanBuilder.Entry>, infer: PlanBuilder.Inference, contract: Contract, inferred: seq<string>)
    requires entries != [] && ContractMet(contract, [])
    ensures var es := Cuts(inferred, 120_001, 3) + [Claim(3, [], true)]; var w := SeenAll(JobFor(entries, infer), contract, es);
      LegalRun(JobFor(entries, infer), contract, es) && ReportsDone(w.job) && WorkRemains(w.job.plan)
    ensures var es := Cuts(inferred, PLANNING_CHARS + 1, 9) + [Claim(9, [], true)]; var w := SeenAll(JobFor(entries, infer), contract, es);
      LegalRun(JobFor(entries, infer), contract, es) && ReportsDone(w.job) && WorkRemains(w.job.plan)
  {
    Levels();
    hide LegalRun, SeenAll, Cuts, Level, ContractMet, JobFor, ReportsDone, WorkRemains;
    CutsLeaveWork(entries, infer, contract, inferred, 120_001, 3);
    CutsLeaveWork(entries, infer, contract, inferred, 40_001, 9);
  }

  // ---- done with a failed task ----

  /** The only task has failed, and its repair comes next. */
  ghost predicate OnlyRepairLeft(w: Watched, r: int) {
    && Inv(w.job) && w.job.status.Running? && !w.job.cancelled && w.job.toolsCalled == []
    && w.next == r && w.job.roundBudget >= MAX_ROUNDS
    && |w.job.plan.tasks| == 2 && w.job.plan.tasks[0].status.Failed? && w.job.plan.tasks[1].status.Pending?
    && w.job.plan.tasks[1].dependsOn == [] && !InterventionDue(w.job.plan.tasks[1], false)
  }

  lemma FailedAndRepaired(p: PlanRec)
    requires WellFormed(p) && |p.tasks| == 1 && p.revisions == 0 && p.tasks[0].status.Failed? && !p.tasks[0].isRecovery
    ensures var q := Recover(p, 0);
      && |q.tasks| == 2 && q.tasks[0].status.Failed? && q.tasks[1].status.Pending?
      && q.tasks[1].dependsOn == [] && !InterventionDue(q.tasks[1], false)
  {
    assert |RepairObjective(p.tasks[0])| > |p.tasks[0].objective|;
    assert RepairAllowed(p, p.tasks[0]);
    hide WellFormed, RepairAllowed, Recover, Slug, Decimal, MakeTaskId;
    RecoverInserts(p, 0);
    assert IndexBefore(0, 0) == 0;
  }

  lemma AbandonedAndRepaired(p: PlanRec)
    requires WellFormed(p) && |p.tasks| == 1 && p.revisions == 0
    requires p.tasks[0].status.InProgress? && !p.tasks[0].isRecovery && p.tasks[0].interventions == 2
    ensures var q := Intervene(p, 0);
      && |q.tasks| == 2 && q.tasks[0].status.Failed? && q.tasks[1].status.Pending?
      && q.tasks[1].dependsOn == [] && !InterventionDue(q.tasks[1], false)
  {
    assert InBudget(p.tasks[0]);
    WithKeepsStarted(p, 0, ForcedTask(p.tasks[0]));
    FailedAndRepaired(p.With(0, ForcedTask(p.tasks[0])));
    hide WellFormed, Recover;
  }

  function TimeoutAt(round: int): Event {
    RoundAt(round, RoundInput(false, [], false, WallClockCut(0)))
  }

  lemma RepairingRound(w: Watched, contract: Contract, r: int, level: (nat, nat))
    requires Forced(w, r, level) && r < MAX_ROUNDS && |w.job.plan.tasks| == 1
    requires level.0 == MAX_INTERVENTIONS_PER_TASK - 1 && level.1 > MAX_REASONING_CHARS_PER_TASK
    ensures Legal(w, contract, TimeoutAt(r)) && OnlyRepairLeft(Seen(w, contract, TimeoutAt(r)), r + 1)
  {
    var s, e := w.job, TimeoutAt(r);
    var top, w', p := AtTop(s, r, e.input), Seen(w, contract, e), Begun(s, 0, []).plan;
    ActiveTop(s, r, e.input);
    IdleTop(s, r, e.input);
    BegunTask(s, 0, []);
    ApplyKeepsInv(s, contract, e);
    RoundKeepsCounters(s, contract, r, e.input);
    hide Current, Begun, Intervene, Inv, WellFormed, AtTop, WindowAfter, WorkedAfter;
    AbandonedAndRepaired(p);
    assert w'.job.plan == top.s.plan.With(0, ChargedTask(top.s.plan.tasks[0], 0));
  }

  lemma RepairIsCurrent(p: PlanRec)
    requires |p.tasks| == 2 && p.tasks[0].status.Failed? && p.tasks[1].status.Pending? && p.tasks[1].dependsOn == []
    ensures Current(p) == 1
  {
    assert IsReady(p.tasks, p.tasks[1]);
  }

  lemma ClaimedLast(p: PlanRec, o: Outcome)
    requires |p.tasks| == 2 && p.tasks[0].status.Failed? && o.FinalAnswer? && o.checksPass
    ensures var q := Claimed(p, 1, o); !Blocks(q) && AnyFailed(q)
  {
    var q := Claimed(p, 1, o);
    assert |q.tasks| == 2 && q.tasks[0].status.Failed? && q.tasks[1].status.Completed?;
    hide Claimed;
  }

  lemma CompletingRound(w: Watched, contract: Contract, r: int, inferred: seq<string>)
    requires OnlyRepairLeft(w, r) && r < MAX_ROUNDS && ContractMet(contract, [])
    ensures Legal(w, contract, Claim(r, inferred, true))
    ensures var s' := Seen(w, contract, Claim(r, inferred, true)).job; ReportsDone(s') && IsComplete(s'.plan) && AnyFailed(s'.plan)
  {
    var s, input := w.job, Claim(r, inferred, true).input;
    ClaimIsLegal(w, contract, r, inferred);
    RepairIsCurrent(s.plan);
    ActiveTop(s, r, input);
    IdleTop(s, r, input);
    BegunTask(s, 1, inferred);
    var top := AtTop(s, r, input);
    hide Current, Begun, Inv, WellFormed, AtTop, AfterRound, ContractMet, IsComplete, Blocks, AnyFailed, Claimed, Legal, WindowAfter, WorkedAfter;
    ClaimedLast(top.s.plan, input.outcome);
    BodyDone(top.s, contract, 1, input.outcome);
    UnblockedIsComplete(Claimed(top.s.plan, 1, input.outcome));
  }

  /** A run that leaves only a repair goes on to a done job in one more round. */
  lemma RepairCompletes(w: Watched, contract: Contract, events: seq<Event>, r: int, inferred: seq<string>)
    requires LegalRun(w, contract, events) && OnlyRepairLeft(SeenAll(w, contract, events), r) && r < MAX_ROUNDS && ContractMet(contract, [])
    ensures var es := events + [Claim(r, inferred, true)]; var w' := SeenAll(w, contract, es);
      LegalRun(w, contract, es) && ReportsDone(w'.job) && IsComplete(w'.job.plan) && AnyFailed(w'.job.plan)
  {
    hide *;
    CompletingRound(SeenAll(w, contract, events), contract, r, inferred);
    var longer := SeenThen(w, contract, events, Claim(r, inferred, true));
  }

  lemma CutsRepair(entry: PlanBuilder.Entry, infer: PlanBuilder.Inference, contract: Contract, inferred: seq<string>)
    ensures var w, es := JobFor([entry], infer), Cuts(inferred, 120_001, 3) + [TimeoutAt(3)];
      LegalRun(w, contract, es) && OnlyRepairLeft(SeenAll(w, contract, es), 4)
  {
    Levels();
    CutsForce([entry], infer, contract, inferred, 120_001, 3);
    RepairingRound(SeenAll(JobFor([entry], infer), contract, Cuts(inferred, 120_001, 3)), contract, 3, (2, 120_001));
    hide *;
    var four := SeenThen(JobFor([entry], infer), contract, Cuts(inferred, 120_001, 3), TimeoutAt(3));
  }

  /** A plan of one task, whatever the task: three interventions abandon it in the fourth round, its repair is
      completed by a claim in the fifth, and the job reports done with the failed task in its plan. */
  lemma DoneAfterFailure(entry: PlanBuilder.Entry, infer: PlanBuilder.Inference, contract: Contract, inferred: seq<string>, inferred': seq<string>)
    requires ContractMet(contract, [])
    ensures var es := Cuts(inferred, 120_001, 3) + [TimeoutAt(3)] + [Claim(4, inferred', true)];
      var w := SeenAll(JobFor([entry], infer), contract, es);
      LegalRun(JobFor([entry], infer), contract, es) && ReportsDone(w.job) && IsComplete(w.job.plan) && AnyFailed(w.job.plan)
  {
    hide *;
    CutsRepair(entry, infer, contract, inferred);
    TenRounds();
    RepairCompletes(JobFor([entry], infer), contract, Cuts(inferred, 120_001, 3) + [TimeoutAt(3)], 4, inferred');
  }

  lemma TenRounds()
    ensures MAX_ROUNDS == 10
  {
  }

  /** The only task has been claimed done `n` times, in vain. */
  ghost predicate Rejected(w: Watched, n: nat) {
    && Inv(w.job) && w.job.status.Running? && !w.job.cancelled && w.job.toolsCalled == []
    && w.next == n && w.job.roundBudget >= MAX_ROUNDS
    && |w.job.plan.tasks| == 1 && Current(w.job.plan) == 0 && w.job.plan.revisions == 0
    && RejectedFirst(w.job.plan.tasks[0], n)
  }

  predicate RejectedFirst(t: TaskRec, n: nat) {
    && !t.isRecovery && t.validators != [] && t.attempts == t.roundsSpent == t.roundsWithoutProgress == n
    && t.interventions == t.reasoningChars == 0
  }

  lemma NewJobIsRejected(entry: PlanBuilder.Entry, infer: PlanBuilder.Inference)
    requires PlanBuilder.Built([entry], infer)[0].validators != []
    ensures Rejected(JobFor([entry], infer), 0)
  {
    PlanBuilder.BuiltIsWellFormed([entry], infer);
    PlanBuilder.BuiltBegins([entry], infer);
    hide WellFormed, Current;
    LagsReflexive(JobFor([entry], infer).job.plan);
  }

  lemma RejectedTop(w: Watched, n: nat, input: RoundInput)
    requires Rejected(w, n) && n < MAX_ATTEMPTS_PER_TASK && !input.cancel && !input.thrashing
    ensures var top := AtTop(w.job, n, input); var t := TaskAtTop(w.job.plan.tasks[0], input);
      && top.Go? && top.active == 0 && top.s.plan == w.job.plan.With(0, t) && t.status.InProgress? && RejectedFirst(t, n)
  {
    var s := w.job;
    ActiveTop(s, n, input);
    BegunTask(s, 0, input.inferred);
    BegunWith(s, 0, input.inferred);
    hide Current, Begun, Intervene, Inv, WellFormed, AtTop;
  }

  lemma RejectionIsLegal(w: Watched, contract: Contract, n: nat, inferred: seq<string>)
    requires Rejected(w, n) && n < MAX_ATTEMPTS_PER_TASK
    ensures Legal(w, contract, Claim(n, inferred, false))
  {
    RejectedTop(w, n, Claim(n, inferred, false).input);
    hide Current, Inv, AtTop, TaskAtTop;
  }

  lemma RejectedRound(w: Watched, contract: Contract, n: nat, inferred: seq<string>)
    requires Rejected(w, n) && n < MAX_ATTEMPTS_PER_TASK
    ensures Legal(w, contract, Claim(n, inferred, false))
    ensures var w' := Seen(w, contract, Claim(n, inferred, false));
      if n + 1 < MAX_ATTEMPTS_PER_TASK then Rejected(w', n + 1) else OnlyRepairLeft(w', n + 1)
  {
    var s, e := w.job, Claim(n, inferred, false);
    RejectionIsLegal(w, contract, n, inferred);
    hide Current, Inv, AtTop, WindowAfter, WorkedAfter, TaskAtTop, Legal, InterventionDue;
    var top, w' := AtTop(s, n, e.input), Seen(w, contract, e);
    RejectedTop(w, n, e.input);
    IdleTop(s, n, e.input);
    ApplyKeepsInv(s, contract, e);
    TopIsWellFormed(s, n, e.input);
    RoundKeepsCounters(s, contract, n, e.input);
    RejectedPlan(top.s.plan, n, e.input.outcome);
    if n + 1 < MAX_ATTEMPTS_PER_TASK {
      StartedIsCurrent(w'.job.plan);
    }
  }

  lemma TopIsWellFormed(s: JobRec, round: int, input: RoundInput)
    requires Inv(s)
    ensures WellFormed(AtTop(s, round, input).s.plan)
  {
    TopKeeps(s, round, input);
    hide AtTop, WellFormed, Progresses, Swept, InterventionDue;
  }

  lemma RejectedPlan(p: PlanRec, n: nat, o: Outcome)
    requires WellFormed(p) && |p.tasks| == 1 && p.revisions == 0 && p.tasks[0].status.InProgress? && RejectedFirst(p.tasks[0], n)
    requires n < MAX_ATTEMPTS_PER_TASK && o == FinalAnswer(0, false, false, true)
    ensures var q := Claimed(p, 0, o);
      if n + 1 < MAX_ATTEMPTS_PER_TASK then |q.tasks| == 1 && q.revisions == 0 && q.tasks[0].status.InProgress? && RejectedFirst(q.tasks[0], n + 1)
      else |q.tasks| == 2 && q.tasks[0].status.Failed? && q.tasks[1].status.Pending? && q.tasks[1].dependsOn == [] && !InterventionDue(q.tasks[1], false)
  {
    var r := RoundRecordedTask(p.tasks[0], false, 0);
    var t := ValidatedTask(r, false);
    WithTwice(p, 0, r, t);
    assert InBudget(p.tasks[0]);
    WithKeepsStarted(p, 0, t);
    if n + 1 == MAX_ATTEMPTS_PER_TASK {
      FailedAndRepaired(p.With(0, t));
    }
    hide WellFormed, Recover;
  }

  /** The first `n` rounds, each a claim that the checks reject. */
  function Rejections(inferred: seq<string>, n: nat): seq<Event> {
    if n == 0 then [] else Rejections(inferred, n - 1) + [Claim(n - 1, inferred, false)]
  }

  ghost predicate AfterRejections(w: Watched, n: nat) {
    if n < MAX_ATTEMPTS_PER_TASK then Rejected(w, n) else OnlyRepairLeft(w, n)
  }

  lemma RejectionsEnd(inferred: seq<string>, n: nat)
    ensures Rejections(inferred, 0) == [] && Rejections(inferred, n + 1) == Rejections(inferred, n) + [Claim(n, inferred, false)]
  {
    hide Claim;
  }

  lemma OneMoreRejection(w: Watched, contract: Contract, inferred: seq<string>, events: seq<Event>, n: nat)
    requires LegalRun(w, contract, events) && AfterRejections(SeenAll(w, contract, events), n) && n < MAX_ATTEMPTS_PER_TASK
    ensures var longer := events + [Claim(n, inferred, false)];
      LegalRun(w, contract, longer) && AfterRejections(SeenAll(w, contract, longer), n + 1)
  {
    hide LegalRun, SeenAll, Rejected, OnlyRepairLeft, Seen, Legal, Claim;
    var longer := SeenThen(w, contract, events, Claim(n, inferred, false));
    RejectedRound(SeenAll(w, contract, events), contract, n, inferred);
  }

  lemma NothingRejected(w: Watched, contract: Contract)
    requires Rejected(w, 0)
    ensures LegalRun(w, contract, []) && AfterRejections(SeenAll(w, contract, []), 0)
  {
    hide Rejected;
  }

  lemma {:induction false} RejectionsHold(w: Watched, contract: Contract, inferred: seq<string>, n: nat)
    requires Rejected(w, 0) && n <= MAX_ATTEMPTS_PER_TASK
    ensures LegalRun(w, contract, Rejections(inferred, n)) && AfterRejections(SeenAll(w, contract, Rejections(inferred, n)), n)
  {
    hide *;
    if n == 0 {
      NothingRejected(w, contract);
      RejectionsEnd(inferred, 0);
    } else {
      RejectionsHold(w, contract, inferred, n - 1);
      OneMoreRejection(w, contract, inferred, Rejections(inferred, n - 1), n - 1);
      RejectionsEnd(inferred, n - 1);
    }
  }

  /** If it has a validator, three rejected claims fail it a round earlier, and the job can report done with a
      failed task in its fourth round. */
  lemma DoneAfterRejections(entry: PlanBuilder.Entry, infer: PlanBuilder.Inference, contract: Contract, inferred: seq<string>, inferred': seq<string>)
    requires PlanBuilder.Built([entry], infer)[0].validators != [] && ContractMet(contract, [])
    ensures var es := Rejections(inferred, 3) + [Claim(3, inferred', true)]; var w := SeenAll(JobFor([entry], infer), contract, es);
      LegalRun(JobFor([entry], infer), contract, es) && ReportsDone(w.job) && IsComplete(w.job.plan) && AnyFailed(w.job.plan)
  {
    NewJobIsRejected(entry, infer);
    RejectionsHold(JobFor([entry], infer), contract, inferred, 3);
    hide Rejected, OnlyRepairLeft, JobFor, SeenAll, LegalRun, Rejections, PlanBuilder.Built, ContractMet, ReportsDone, IsComplete, AnyFailed;
    assert OnlyRepairLeft(SeenAll(JobFor([entry], infer), contract, Rejections(inferred, 3)), 3);
    hide *;
    TenRounds();
    RepairCompletes(JobFor([entry], infer), contract, Rejections(inferred, 3), 3, inferred');
  }
}
