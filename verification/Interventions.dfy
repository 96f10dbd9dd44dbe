/** What a round does to each task of its plan, and from that how many rounds it takes to intervene on a
    task, to give it up, and to report a job done that should not be. */
module Interventions {
  import opened Ids
  import opened PlanModel
  import opened PlanPotential
  import opened JobModel
  import opened JobRuns
  import opened JobLoop
  import opened LegalRuns
  import opened JobGates

  // ---- a round, task by task ----

  /** The same task, perhaps waiting for others. */
  predicate SameButWaits(t: TaskRec, u: TaskRec) {
    u == t.(dependsOn := u.dependsOn)
  }

  /** Interventions a task starts with. */
  function Seeded(t: TaskRec): nat {
    if t.isRecovery then MAX_INTERVENTIONS_PER_TASK - 1 else 0
  }

  /** Nothing has been spent on the task. */
  predicate Untouched(t: TaskRec) {
    && t.attempts == 0 && t.interventions == Seeded(t)
    && t.roundsSpent == t.roundsWithoutProgress == t.reasoningChars == 0
  }

  predicate NewRepair(t: TaskRec) {
    t.status.Pending? && t.isRecovery && Untouched(t)
  }

  function TaskBegun(t: TaskRec, inferred: seq<string>): TaskRec {
    if t.status.InProgress? then t else WithValidators(StartedTask(t), inferred)
  }

  /** The active task after the top of the round. */
  function TaskAtTop(t: TaskRec, input: RoundInput): TaskRec {
    var u := TaskBegun(t, input.inferred);
    if InterventionDue(u, input.thrashing) then ForcedTask(u) else u
  }

  /** The active task after what the model did; `advanced` says whether a tool round completed it. */
  function TaskAfter(u: TaskRec, o: Outcome, advanced: bool): TaskRec {
    match o
    case CharacterCut(chars) => ChargedTask(u, chars)
    case WallClockCut(chars) => ChargedTask(u, chars)
    case ToolRound(_, chars, progress, _, _) =>
      var r := RoundRecordedTask(u, progress, chars);
      if advanced && r.status.InProgress? then CompletedTask(r) else r
    case FinalAnswer(chars, progress, checksPass, _) =>
      if u.status.Terminal() then u else ValidatedTask(RoundRecordedTask(u, progress, chars), checksPass)
    case _ => u
  }

  ghost predicate SameTasks(p: PlanRec, q: PlanRec) {
    |q.tasks| == |p.tasks| && forall k :: 0 <= k < |p.tasks| ==> SameButWaits(p.tasks[k], q.tasks[k])
  }

  ghost predicate RepairAdded(p: PlanRec, q: PlanRec, i: nat)
    requires i < |p.tasks|
  {
    && |q.tasks| == |p.tasks| + 1 && NewRepair(q.tasks[i + 1]) && p.tasks[i].status.Failed? && !p.tasks[i].isRecovery
    && forall k :: 0 <= k < |q.tasks| && k != i + 1 ==> SameButWaits(p.tasks[IndexBefore(i, k)], q.tasks[k])
  }

  /** `q` is `p`, perhaps with a repair after its failed task `i`. */
  ghost predicate Grown(p: PlanRec, q: PlanRec, i: nat) {
    i < |p.tasks| && (SameTasks(p, q) || RepairAdded(p, q, i))
  }

  lemma GrownItself(p: PlanRec, i: nat)
    requires i < |p.tasks|
    ensures Grown(p, p, i)
  {
  }

  lemma RecoverGrows(p: PlanRec, i: nat)
    requires WellFormed(p) && i < |p.tasks| && p.tasks[i].status.Failed?
    ensures Grown(p, Recover(p, i), i)
  {
    if RepairAllowed(p, p.tasks[i]) {
      RecoverInserts(p, i);
      var q, repair := Recover(p, i), RepairOf(p.tasks[i], |p.tasks| + 1);
      hide Recover, MakeTaskId, Slug, Decimal, UniqueIds, Numbered, DependenciesEarlier, OneStarted;
      forall k | 0 <= k < |q.tasks| && k != i + 1 ensures SameButWaits(p.tasks[IndexBefore(i, k)], q.tasks[k]) {
        assert InBudget(p.tasks[IndexBefore(i, k)]);
      }
    } else {
      GrownItself(p, i);
    }
  }

  /** Changing the task the plan has grown at. */
  lemma GrownWith(p: PlanRec, q: PlanRec, i: nat, t: TaskRec, u: TaskRec)
    requires Grown(p, q, i) && SameButWaits(t, u)
    requires p.tasks[i].status.Failed? ==> t.status.Failed? && t.isRecovery == p.tasks[i].isRecovery
    ensures i < |q.tasks| && Grown(p.With(i, t), q.With(i, u), i)
  {
    hide SameButWaits, NewRepair;
    assert IndexBefore(i, i) == i;
  }

  /** An intervention changes the active task and may add its repair. */
  lemma IntervenedGrows(p: PlanRec, i: nat)
    requires WellFormed(p) && i < |p.tasks| && p.tasks[i].status.InProgress?
    ensures Grown(p.With(i, ForcedTask(p.tasks[i])), Intervene(p, i), i)
  {
    var q := p.With(i, ForcedTask(p.tasks[i]));
    assert InBudget(p.tasks[i]);
    WithKeepsStarted(p, i, ForcedTask(p.tasks[i]));
    hide WellFormed, Recover, Grown;
    GrownItself(q, i);
    if q.tasks[i].interventions >= MAX_INTERVENTIONS_PER_TASK {
      RecoverGrows(q, i);
    }
  }

  lemma BegunWith(s: JobRec, c: nat, inferred: seq<string>)
    requires c < |s.plan.tasks|
    ensures Begun(s, c, inferred).plan == s.plan.With(c, TaskBegun(s.plan.tasks[c], inferred))
  {
    assert s.plan.tasks[c := s.plan.tasks[c]] == s.plan.tasks;
  }

  lemma GrownKeepsTask(p: PlanRec, q: PlanRec, i: nat)
    requires Grown(p, q, i)
    ensures i < |q.tasks| && SameButWaits(p.tasks[i], q.tasks[i])
  {
    assert IndexBefore(i, i) == i;
  }

  lemma TopPlan(s: JobRec, round: int, input: RoundInput)
    requires Inv(s) && s.status.Running? && WorksOn(s, input)
    ensures var top, c := AtTop(s, round, input), Current(s.plan); var u := TaskAtTop(s.plan.tasks[c], input);
      && top.Go? && top.active == c && Grown(s.plan.With(c, u), top.s.plan, c)
      && (top.s.plan.tasks[c].status.Terminal() <==> GivesUp(s, input))
  {
    var c := Current(s.plan);
    ActiveTop(s, round, input);
    BegunTask(s, c, input.inferred);
    BegunWith(s, c, input.inferred);
    hide WellFormed, Current, Begun, Intervene, Recover, Inv, TaskBegun, Grown, GivesUp, InterventionDue, AtTop;
    var p := Begun(s, c, input.inferred).plan;
    if InterventionDue(s.plan.tasks[c], input.thrashing) {
      IntervenedGrows(p, c);
      WithTwice(s.plan, c, p.tasks[c], ForcedTask(p.tasks[c]));
    } else {
      GrownItself(p, c);
    }
  }

  /** What the top of a round does to the plan. */
  lemma TopTasks(s: JobRec, round: int, input: RoundInput)
    requires Inv(s) && s.status.Running? && WorksOn(s, input)
    ensures var top, c := AtTop(s, round, input), Current(s.plan); var u := TaskAtTop(s.plan.tasks[c], input);
      && top.Go? && top.active == c && top.s.status.Running? && !top.s.cancelled
      && Grown(s.plan.With(c, u), top.s.plan, c) && SameButWaits(u, top.s.plan.tasks[c])
      && (u.status.Terminal() <==> GivesUp(s, input)) && (u.status.InProgress? || u.status.Failed?)
      && WellFormed(top.s.plan)
  {
    var c := Current(s.plan);
    IdleTop(s, round, input);
    TopKeeps(s, round, input);
    TopPlan(s, round, input);
    hide WellFormed, Current, Inv, Grown, GivesUp, AtTop, Progresses, Swept, Potential;
    GrownKeepsTask(s.plan.With(c, TaskAtTop(s.plan.tasks[c], input)), AtTop(s, round, input).s.plan, c);
  }

  lemma SameThenGrown(p: PlanRec, x: PlanRec, q: PlanRec, i: nat)
    requires SameTasks(p, x) && Grown(x, q, i)
    ensures Grown(p, q, i)
  {
  }

  lemma GrownUnfinished(p: PlanRec, q: PlanRec, i: nat)
    requires Grown(p, q, i) && !p.tasks[i].status.Failed?
    ensures SameTasks(p, q)
  {
  }

  lemma ToolsPlan(s: JobRec, c: nat, o: Outcome) returns (advanced: bool)
    requires c < |s.plan.tasks| && o.ToolRound?
    ensures var r := RoundRecordedTask(s.plan.tasks[c], o.progress, o.chars);
      && (advanced ==> s.plan.tasks[c].status.InProgress?)
      && AfterTools(s, c, o).plan == s.plan.With(c, if advanced then CompletedTask(r) else r)
  {
    var r := RoundRecordedTask(s.plan.tasks[c], o.progress, o.chars);
    advanced := Advances(r, ToolsRanInTask(s.(toolsCalled := s.toolsCalled + o.tools), s.plan.tasks[c].id), o.checksPass);
    assert advanced ==> r.status.InProgress?;
    hide Advances;
    WithTwice(s.plan, c, r, CompletedTask(r));
  }

  lemma ToolsTasks(p: PlanRec, s: JobRec, contract: Contract, c: nat, u: TaskRec, o: Outcome) returns (advanced: bool)
    requires c < |p.tasks| && Grown(p.With(c, u), s.plan, c) && c < |s.plan.tasks| && SameButWaits(u, s.plan.tasks[c])
    requires o.ToolRound?
    ensures Grown(p.With(c, TaskAfter(u, o, advanced)), AfterTools(s, c, o).plan, c)
  {
    advanced := ToolsPlan(s, c, o);
    hide Grown, AfterTools;
    var r := RoundRecordedTask(s.plan.tasks[c], o.progress, o.chars);
    BodyGrows(p, s.plan, c, u, TaskAfter(u, o, advanced), if advanced then CompletedTask(r) else r);
  }

  /** What a cut, a stall or a tool round does, given what the top of the round did. */
  lemma BodyTasks(p: PlanRec, s: JobRec, contract: Contract, c: nat, u: TaskRec, o: Outcome) returns (advanced: bool)
    requires c < |p.tasks| && Grown(p.With(c, u), s.plan, c) && c < |s.plan.tasks| && SameButWaits(u, s.plan.tasks[c])
    requires !o.FinalAnswer?
    ensures Grown(p.With(c, TaskAfter(u, o, advanced)), AfterRound(s, contract, c, o).plan, c)
  {
    var v := s.plan.tasks[c];
    advanced := false;
    hide Grown, AfterTools;
    match o {
      case CharacterCut(chars) => BodyGrows(p, s.plan, c, u, ChargedTask(u, chars), ChargedTask(v, chars));
      case WallClockCut(chars) => BodyGrows(p, s.plan, c, u, ChargedTask(u, chars), ChargedTask(v, chars));
      case ToolRound(_, _, _, _, _) => advanced := ToolsTasks(p, s, contract, c, u, o);
      case _ =>
    }
  }

  lemma BodyGrows(p: PlanRec, q: PlanRec, c: nat, u: TaskRec, t: TaskRec, t': TaskRec)
    requires c < |p.tasks| && Grown(p.With(c, u), q, c) && SameButWaits(t, t')
    requires u.status.Failed? ==> t.status.Failed? && t.isRecovery == u.isRecovery
    ensures c < |q.tasks| && Grown(p.With(c, t), q.With(c, t'), c)
  {
    WithTwice(p, c, u, t);
    GrownWith(p.With(c, u), q, c, t, t');
  }

  /** What an answer does. */
  lemma AnswerTasks(p: PlanRec, s: JobRec, contract: Contract, c: nat, u: TaskRec, o: Outcome)
    requires c < |p.tasks| && Grown(p.With(c, u), s.plan, c) && SameButWaits(u, s.plan.tasks[c])
    requires o.FinalAnswer? && WellFormed(s.plan)
    requires u.status.Failed? || (u.status.InProgress? && !InterventionDue(s.plan.tasks[c], false))
    ensures c < |s.plan.tasks| && Grown(p.With(c, TaskAfter(u, o, false)), AfterRound(s, contract, c, o).plan, c)
  {
    GrownKeepsTask(p.With(c, u), s.plan, c);
    var v := s.plan.tasks[c];
    if u.status.InProgress? {
      var r := RoundRecordedTask(v, o.progress, o.chars);
      var x := s.plan.With(c, ValidatedTask(r, o.checksPass));
      var t := TaskAfter(u, o, false);
      BodyGrows(p, s.plan, c, u, t, ValidatedTask(r, o.checksPass));
      GrownUnfinished(p.With(c, u), s.plan, c);
      WithTwice(s.plan, c, r, ValidatedTask(r, o.checksPass));
      ClaimGrows(s.plan, c, o);
      hide WellFormed, Claimed, InterventionDue;
      SameTasksWith(p, s.plan, c, u, t, ValidatedTask(r, o.checksPass));
      SameThenGrown(p.With(c, t), x, Claimed(s.plan, c, o), c);
    } else {
      hide Grown, WellFormed, InterventionDue;
    }
  }

  lemma SameTasksWith(p: PlanRec, q: PlanRec, c: nat, u: TaskRec, t: TaskRec, t': TaskRec)
    requires c < |p.tasks| && SameTasks(p.With(c, u), q) && SameButWaits(t, t')
    ensures SameTasks(p.With(c, t), q.With(c, t'))
  {
    hide SameButWaits;
    forall k | 0 <= k < |p.tasks| ensures SameButWaits(p.With(c, t).tasks[k], q.With(c, t').tasks[k]) {
      assert SameButWaits(p.With(c, u).tasks[k], q.tasks[k]);
    }
  }

  /** A claim changes the active task and may add its repair. */
  lemma ClaimGrows(p: PlanRec, i: nat, o: Outcome)
    requires WellFormed(p) && i < |p.tasks| && o.FinalAnswer?
    requires p.tasks[i].status.InProgress? && !InterventionDue(p.tasks[i], false)
    ensures Grown(p.With(i, ValidatedTask(RoundRecordedTask(p.tasks[i], o.progress, o.chars), o.checksPass)), Claimed(p, i, o), i)
  {
    var r := RoundRecordedTask(p.tasks[i], o.progress, o.chars);
    var x := p.With(i, ValidatedTask(r, o.checksPass));
    WithTwice(p, i, r, ValidatedTask(r, o.checksPass));
    RecordedKeeps(p, i, o.progress, o.chars);
    GrownItself(x, i);
    if !o.checksPass {
      RejectedKeeps(p.With(i, r), i);
      hide WellFormed, Recover, Grown, Potential, Progresses, Swept;
      if x.tasks[i].status.Failed? {
        RecoverGrows(x, i);
      }
    }
  }

  /** A round with a task to work on changes that task alone, and adds at most its repair. */
  lemma RoundTasks(s: JobRec, contract: Contract, round: int, input: RoundInput) returns (advanced: bool)
    requires Inv(s) && s.status.Running? && WorksOn(s, input)
    ensures var c := Current(s.plan); var t := TaskAfter(TaskAtTop(s.plan.tasks[c], input), input.outcome, advanced);
      Grown(s.plan.With(c, t), Round(s, contract, round, input).plan, c)
  {
    TopTasks(s, round, input);
    TopKeeps(s, round, input);
    var c, top := Current(s.plan), AtTop(s, round, input);
    var u := TaskAtTop(s.plan.tasks[c], input);
    hide WellFormed, Current, Grown, GivesUp, AtTop, AfterRound, Progresses, Swept, Potential, TaskAtTop, TaskAfter;
    if input.outcome.FinalAnswer? {
      advanced := false;
      AnswerTasks(s.plan, top.s, contract, c, u, input.outcome);
    } else {
      advanced := BodyTasks(s.plan, top.s, contract, c, u, input.outcome);
    }
  }

  /** One without changes none. */
  lemma IdleRoundTasks(s: JobRec, contract: Contract, round: int, input: RoundInput)
    requires Inv(s) && s.status.Running? && !WorksOn(s, input)
    ensures Round(s, contract, round, input).plan == s.plan
  {
    hide WellFormed, Current, Blocks, Claimed, ContractMet, Intervene, Begun;
  }

  /** At most the task being worked on is started. */
  lemma OnlyCurrentStarted(p: PlanRec)
    requires WellFormed(p) && Current(p) >= 0
    ensures var t := p.tasks[Current(p)]; t.status.InProgress? || t.status.Pending?
    ensures forall k :: 0 <= k < |p.tasks| && k != Current(p) ==> !p.tasks[k].status.InProgress?
  {
    hide UniqueIds, Numbered, DependenciesEarlier, InBudget;
    CurrentWorks(p);
    var c := Current(p);
    hide Current;
    if p.tasks[c].status.InProgress? {
      forall k | 0 <= k < |p.tasks| && k != c ensures !p.tasks[k].status.InProgress? {
        assert k < c || c < k;
      }
    }
  }

  // ---- what an intervention takes ----

  /** The window never holds more rounds than the task it is about has on record since its counters were
      cleared, and neither does the streak. */
  predicate Evident(t: TaskRec, window: nat) {
    t.roundsWithoutProgress <= t.roundsSpent && (t.status.InProgress? ==> window <= t.roundsSpent)
  }

  ghost predicate Evidenced(w: Watched) {
    Inv(w.job) && forall k :: 0 <= k < |w.job.plan.tasks| ==> Evident(w.job.plan.tasks[k], w.window)
  }

  /** If a property of tasks does not look at what they wait for, it is enough to know it of the plan before
      the round with the active task changed, and of new repairs. */
  lemma GrownEvident(p: PlanRec, q: PlanRec, i: nat, window: nat)
    requires Grown(p, q, i) && forall k :: 0 <= k < |p.tasks| ==> Evident(p.tasks[k], window)
    ensures forall k :: 0 <= k < |q.tasks| ==> Evident(q.tasks[k], window)
  {
  }

  lemma TaskStaysEvident(t: TaskRec, input: RoundInput, advanced: bool, window: nat)
    requires Evident(t, window) && (t.status.InProgress? || t.status.Pending?)
    ensures var kept := if InterventionDue(t, input.thrashing) then 0 else if t.status.InProgress? then window else 0;
      var t' := TaskAfter(TaskAtTop(t, input), input.outcome, advanced); var o := input.outcome;
      Evident(t', kept) && (o.ToolRound? || (o.FinalAnswer? && !TaskAtTop(t, input).status.Failed?) ==> Evident(t', kept + 1))
  {
  }

  lemma RoundKeepsEvidence(w: Watched, contract: Contract, round: int, input: RoundInput)
    requires Evidenced(w) && w.job.status.Running? && WorksOn(w.job, input)
    ensures Evidenced(Seen(w, contract, RoundAt(round, input)))
  {
    var s, w' := w.job, Seen(w, contract, RoundAt(round, input));
    var c := Current(s.plan);
    var advanced := RoundTasks(s, contract, round, input);
    TopTasks(s, round, input);
    ApplyKeepsInv(s, contract, RoundAt(round, input));
    OnlyCurrentStarted(s.plan);
    var t := s.plan.tasks[c];
    TaskStaysEvident(t, input, advanced, w.window);
    var p := s.plan.With(c, TaskAfter(TaskAtTop(t, input), input.outcome, advanced));
    hide Round, AtTop, Inv, Grown, TaskAfter, TaskAtTop, Current, WellFormed, InterventionDue;
    assert Evident(p.tasks[c], w'.window);
    forall k | 0 <= k < |p.tasks| ensures Evident(p.tasks[k], w'.window) {
      if k != c { assert p.tasks[k] == s.plan.tasks[k]; }
    }
    GrownEvident(p, w'.job.plan, c, w'.window);
  }

  lemma SeenKeepsEvidence(w: Watched, contract: Contract, e: Event)
    requires Evidenced(w)
    ensures Evidenced(Seen(w, contract, e))
  {
    ApplyKeepsInv(w.job, contract, e);
    match e {
      case RoundAt(r, input) =>
        if w.job.status.Running? {
          if WorksOn(w.job, input) {
            RoundKeepsEvidence(w, contract, r, input);
          } else {
            IdleRoundTasks(w.job, contract, r, input);
            hide Round, WellFormed, Current;
          }
        }
      case Exhaust => hide WellFormed;
      case Resume(_) => hide WellFormed;
      case Restart => hide WellFormed;
    }
  }

  lemma {:induction false} RunKeepsEvidence(w: Watched, contract: Contract, events: seq<Event>)
    requires Evidenced(w)
    ensures Evidenced(SeenAll(w, contract, events))
  {
    hide Seen, Evidenced;
    if events != [] {
      RunKeepsEvidence(w, contract, events[..|events| - 1]);
      SeenKeepsEvidence(SeenAll(w, contract, events[..|events| - 1]), contract, events[|events| - 1]);
    }
  }

  /** A plan nothing has been done on, as every builder makes it. */
  ghost predicate NewPlan(built: PlanRec) {
    WellFormed(built) && forall k :: 0 <= k < |built.tasks| ==>
      built.tasks[k].status.Pending? && Untouched(built.tasks[k]) && !built.tasks[k].isRecovery
  }

  lemma NewIsEvidenced(built: PlanRec)
    requires NewPlan(built)
    ensures Evidenced(NewWatched(built))
  {
    LagsReflexive(built);
    hide WellFormed;
  }

  lemma DueMeansEvidence(w: Watched, contract: Contract, round: int, input: RoundInput)
    requires Evidenced(w) && Legal(w, contract, RoundAt(round, input)) && WorksOn(w.job, input)
    ensures var t := w.job.plan.tasks[Current(w.job.plan)];
      InterventionDue(t, input.thrashing) ==> t.roundsSpent >= MAX_ROUNDS_WITHOUT_PROGRESS || t.reasoningChars > MAX_REASONING_CHARS_PER_TASK
  {
    hide Current, Inv, Possible, AtTop;
    assert Evident(w.job.plan.tasks[Current(w.job.plan)], w.window);
  }

  /** However a job runs, continuations and restarts included, and whatever the verdict on thrashing, there is
      no intervention on a task that has not had three recorded rounds, or generated more than 120,000
      characters, since these counters of it were last cleared. */
  lemma InterventionTakesEvidence(built: PlanRec, contract: Contract, events: seq<Event>, round: int, input: RoundInput)
    requires NewPlan(built) && LegalRun(NewWatched(built), contract, events + [RoundAt(round, input)])
    ensures var s := SeenAll(NewWatched(built), contract, events).job; var c := Current(s.plan);
      WorksOn(s, input) && InterventionDue(s.plan.tasks[c], input.thrashing) ==>
        s.plan.tasks[c].roundsSpent >= MAX_ROUNDS_WITHOUT_PROGRESS || s.plan.tasks[c].reasoningChars > MAX_REASONING_CHARS_PER_TASK
  {
    var w := SeenAll(NewWatched(built), contract, events);
    NewIsEvidenced(built);
    RunKeepsEvidence(NewWatched(built), contract, events);
    var longer := SeenThen(NewWatched(built), contract, events, RoundAt(round, input));
    hide Evidenced, Legal, InterventionDue, Current;
    if WorksOn(w.job, input) {
      DueMeansEvidence(w, contract, round, input);
    }
  }

  function Generated(o: Outcome): nat {
    match o
    case CharacterCut(chars) => chars
    case WallClockCut(chars) => chars
    case ToolRound(_, chars, _, _, _) => chars
    case FinalAnswer(chars, _, _, _) => chars
    case _ => 0
  }

  predicate Cleared(u: TaskRec) {
    u.roundsSpent == u.roundsWithoutProgress == u.reasoningChars == 0
  }

  lemma ClearedAtTop(t: TaskRec, input: RoundInput)
    requires InterventionDue(t, input.thrashing)
    ensures Cleared(TaskAtTop(t, input))
  {
  }

  lemma ClearedTask(u: TaskRec, o: Outcome, advanced: bool, thrashing: bool)
    requires Cleared(u) && !thrashing
    ensures var t := TaskAfter(u, o, advanced);
      t.status.InProgress? ==> (InterventionDue(t, thrashing) <==> Generated(o) > MAX_REASONING_CHARS_PER_TASK)
  {
  }

  /** Two interventions on a task in adjacent rounds: the second happens if and only if the round between them
      generated more than 120,000 characters all by itself. */
  lemma AdjacentInterventions(w: Watched, contract: Contract, round: int, input: RoundInput, round': int, input': RoundInput)
    requires Evidenced(w) && Legal(w, contract, RoundAt(round, input)) && WorksOn(w.job, input)
    requires InterventionDue(w.job.plan.tasks[Current(w.job.plan)], input.thrashing) && !GivesUp(w.job, input)
    requires var w' := Seen(w, contract, RoundAt(round, input));
      Legal(w', contract, RoundAt(round', input')) && WorksOn(w'.job, input')
      && Current(w'.job.plan) == Current(w.job.plan) && w'.job.plan.tasks[Current(w.job.plan)].status.InProgress?
    ensures var w' := Seen(w, contract, RoundAt(round, input));
      InterventionDue(w'.job.plan.tasks[Current(w.job.plan)], input'.thrashing) <==>
        Generated(input.outcome) > MAX_REASONING_CHARS_PER_TASK
  {
    var s, w' := w.job, Seen(w, contract, RoundAt(round, input));
    var c := Current(s.plan);
    var advanced := RoundTasks(s, contract, round, input);
    OnlyCurrentStarted(s.plan);
    var t := s.plan.tasks[c];
    ClearedAtTop(t, input);
    assert w'.window <= 1;
    hide Round, AtTop, Inv, Grown, TaskAfter, TaskAtTop, Current, WellFormed, InterventionDue, Possible;
    GrownKeepsTask(s.plan.With(c, TaskAfter(TaskAtTop(t, input), input.outcome, advanced)), w'.job.plan, c);
    ClearedTask(TaskAtTop(t, input), input.outcome, advanced, input'.thrashing);
    SameDue(TaskAfter(TaskAtTop(t, input), input.outcome, advanced), w'.job.plan.tasks[c], input'.thrashing);
  }

  lemma SameDue(t: TaskRec, u: TaskRec, thrashing: bool)
    requires SameButWaits(t, u)
    ensures InterventionDue(t, thrashing) == InterventionDue(u, thrashing)
  {
  }

  // ---- what giving up takes ----

  /** What has been spent on a task took that many rounds. */
  predicate Earned(t: TaskRec, worked: nat, rounds: nat) {
    && t.attempts <= worked
    && t.interventions <= Seeded(t) + (if worked > 0 then worked - 1 else 0)
    && (t.status.InProgress? ==> worked > 0)
    && (t.status.Pending? ==> Untouched(t))
    && (t.status.Failed? || t.isRecovery ==> rounds >= 3)
  }

  ghost predicate AllEarned(tasks: seq<TaskRec>, worked: map<string, nat>, rounds: nat) {
    forall k :: 0 <= k < |tasks| ==> Earned(tasks[k], RoundsOn(worked, tasks[k].id), rounds)
  }

  ghost predicate Paid(w: Watched) {
    && Evidenced(w) && AllEarned(w.job.plan.tasks, w.worked, w.rounds)
    && forall id :: RoundsOn(w.worked, id) <= w.rounds
  }

  lemma GrownEarned(p: PlanRec, q: PlanRec, i: nat, worked: map<string, nat>, rounds: nat)
    requires Grown(p, q, i) && AllEarned(p.tasks, worked, rounds)
    ensures AllEarned(q.tasks, worked, rounds)
  {
    hide Untouched;
    forall k | 0 <= k < |q.tasks| ensures Earned(q.tasks[k], RoundsOn(worked, q.tasks[k].id), rounds) {
      if SameTasks(p, q) {
        SameEarned(p.tasks[k], q.tasks[k], worked, rounds);
      } else if k == i + 1 {
        NewRepairEarned(q.tasks[k], worked, rounds);
      } else {
        SameEarned(p.tasks[IndexBefore(i, k)], q.tasks[k], worked, rounds);
      }
    }
  }

  lemma SameEarned(t: TaskRec, u: TaskRec, worked: map<string, nat>, rounds: nat)
    requires SameButWaits(t, u) && Earned(t, RoundsOn(worked, t.id), rounds)
    ensures Earned(u, RoundsOn(worked, u.id), rounds)
  {
  }

  lemma NewRepairEarned(t: TaskRec, worked: map<string, nat>, rounds: nat)
    requires NewRepair(t) && rounds >= 3
    ensures Earned(t, RoundsOn(worked, t.id), rounds)
  {
  }

  /** What is known of the active task after the top of its round. */
  predicate EarnedSoFar(u: TaskRec, worked: nat, rounds: nat) {
    && u.attempts <= worked && u.interventions <= Seeded(u) + worked
    && (u.status.InProgress? || u.status.Failed?)
    && (u.status.Failed? || u.isRecovery ==> rounds >= 3)
  }

  lemma TopEarns(t: TaskRec, input: RoundInput, worked: nat, rounds: nat)
    requires Earned(t, worked, rounds) && worked <= rounds && (t.status.InProgress? || t.status.Pending?)
    requires InterventionDue(t, input.thrashing) ==> t.roundsSpent >= MAX_ROUNDS_WITHOUT_PROGRESS || t.reasoningChars > MAX_REASONING_CHARS_PER_TASK
    ensures EarnedSoFar(TaskAtTop(t, input), worked, rounds)
  {
  }

  lemma BodyEarns(u: TaskRec, o: Outcome, advanced: bool, worked: nat, rounds: nat)
    requires EarnedSoFar(u, worked, rounds) && worked <= rounds
    ensures Earned(TaskAfter(u, o, advanced), worked + 1, rounds + 1)
  {
  }

  lemma SeenRound(w: Watched, contract: Contract, round: int, input: RoundInput)
    requires w.job.status.Running? && WorksOn(w.job, input)
    ensures var w', id := Seen(w, contract, RoundAt(round, input)), w.job.plan.tasks[Current(w.job.plan)].id;
      && w'.job == Round(w.job, contract, round, input) && w'.rounds == w.rounds + 1
      && w'.worked == w.worked[id := RoundsOn(w.worked, id) + 1]
  {
    hide Round, WindowAfter, Current;
  }

  lemma LegalRound(w: Watched, contract: Contract, round: int, input: RoundInput)
    requires Legal(w, contract, RoundAt(round, input)) && WorksOn(w.job, input)
    ensures w.job.status.Running? && Current(w.job.plan) >= 0
  {
    hide VerdictsPossible, Current;
  }

  lemma PaidMeans(w: Watched)
    requires Paid(w) && Current(w.job.plan) >= 0
    ensures var t := w.job.plan.tasks[Current(w.job.plan)]; var worked := RoundsOn(w.worked, t.id);
      && Earned(t, worked, w.rounds) && worked <= w.rounds && (t.status.InProgress? || t.status.Pending?)
      && UniqueIds(w.job.plan.tasks) && AllEarned(w.job.plan.tasks, w.worked, w.rounds) && Inv(w.job) && Evidenced(w)
  {
    OnlyCurrentStarted(w.job.plan);
    hide Current, Earned;
  }

  lemma RoundPays(w: Watched, contract: Contract, round: int, input: RoundInput)
    requires Paid(w) && Legal(w, contract, RoundAt(round, input)) && WorksOn(w.job, input)
    ensures Paid(Seen(w, contract, RoundAt(round, input)))
  {
    hide *;
    LegalRound(w, contract, round, input);
    PaidMeans(w);
    var s, w', c := w.job, Seen(w, contract, RoundAt(round, input)), Current(w.job.plan);
    var t := s.plan.tasks[c];
    var worked := RoundsOn(w.worked, t.id);
    var advanced := RoundTasks(s, contract, round, input);
    SeenRound(w, contract, round, input);
    RoundKeepsEvidence(w, contract, round, input);
    DueMeansEvidence(w, contract, round, input);
    TopEarns(t, input, worked, w.rounds);
    BodyEarns(TaskAtTop(t, input), input.outcome, advanced, worked, w.rounds);
    TaskKeepsId(t, input, advanced);
    EarnedAfter(w, w', c, TaskAfter(TaskAtTop(t, input), input.outcome, advanced));
  }

  lemma EarnedAfter(w: Watched, w': Watched, c: nat, t: TaskRec)
    requires Paid(w) && Evidenced(w') && c < |w.job.plan.tasks| && t.id == w.job.plan.tasks[c].id && UniqueIds(w.job.plan.tasks)
    requires Grown(w.job.plan.With(c, t), w'.job.plan, c)
    requires w'.worked == w.worked[t.id := RoundsOn(w.worked, t.id) + 1] && w'.rounds == w.rounds + 1
    requires Earned(t, RoundsOn(w.worked, t.id) + 1, w.rounds + 1)
    ensures Paid(w')
  {
    hide Evidenced, Grown, UniqueIds, Earned, AllEarned;
    OthersEarned(w.job.plan.tasks, c, t, w.worked, w'.worked, w.rounds);
    GrownEarned(w.job.plan.With(c, t), w'.job.plan, c, w'.worked, w'.rounds);
    forall id ensures RoundsOn(w'.worked, id) <= w'.rounds {
      assert RoundsOn(w.worked, id) <= w.rounds && RoundsOn(w.worked, t.id) <= w.rounds;
    }
  }

  lemma TaskKeepsId(t: TaskRec, input: RoundInput, advanced: bool)
    ensures TaskAfter(TaskAtTop(t, input), input.outcome, advanced).id == t.id
  {
    hide InterventionDue;
    var u := TaskAtTop(t, input);
    assert u.id == t.id;
    hide TaskAtTop;
  }

  lemma OthersEarned(tasks: seq<TaskRec>, c: nat, t: TaskRec, worked: map<string, nat>, worked': map<string, nat>, rounds: nat)
    requires c < |tasks| && UniqueIds(tasks) && AllEarned(tasks, worked, rounds) && t.id == tasks[c].id
    requires worked' == worked[t.id := RoundsOn(worked, t.id) + 1]
    requires Earned(t, RoundsOn(worked', t.id), rounds + 1)
    ensures AllEarned(tasks[c := t], worked', rounds + 1)
  {
    hide Untouched;
    var after := tasks[c := t];
    forall k | 0 <= k < |after| ensures Earned(after[k], RoundsOn(worked', after[k].id), rounds + 1) {
      if k != c {
        assert tasks[k].id != tasks[c].id;
        assert Earned(tasks[k], RoundsOn(worked, tasks[k].id), rounds);
      }
    }
  }

  lemma MoreRounds(tasks: seq<TaskRec>, worked: map<string, nat>, rounds: nat)
    requires AllEarned(tasks, worked, rounds)
    ensures AllEarned(tasks, worked, rounds + 1)
  {
    hide Untouched;
    forall k | 0 <= k < |tasks| ensures Earned(tasks[k], RoundsOn(worked, tasks[k].id), rounds + 1) {
      assert Earned(tasks[k], RoundsOn(worked, tasks[k].id), rounds);
    }
  }

  lemma SavedEarned(s: JobRec, worked: map<string, nat>, rounds: nat)
    requires Inv(s) && AllEarned(s.plan.tasks, worked, rounds)
    ensures AllEarned(s.saved.tasks, worked, rounds)
  {
    hide WellFormed;
    forall k | 0 <= k < |s.saved.tasks| ensures Earned(s.saved.tasks[k], RoundsOn(worked, s.saved.tasks[k].id), rounds) {
      assert Earned(s.plan.tasks[k], RoundsOn(worked, s.plan.tasks[k].id), rounds);
    }
  }

  lemma SeenPays(w: Watched, contract: Contract, e: Event)
    requires Paid(w) && Legal(w, contract, e) && !e.Restart?
    ensures Paid(Seen(w, contract, e))
  {
    SeenKeepsEvidence(w, contract, e);
    match e {
      case RoundAt(r, input) =>
        if WorksOn(w.job, input) {
          RoundPays(w, contract, r, input);
        } else {
          IdleRoundTasks(w.job, contract, r, input);
          hide Evidenced, Round, AllEarned, Current;
          MoreRounds(w.job.plan.tasks, w.worked, w.rounds);
        }
      case Resume(_) =>
        SavedEarned(w.job, w.worked, w.rounds);
        hide Evidenced, AllEarned, Inv;
      case Exhaust => hide Evidenced, AllEarned, Inv;
    }
  }

  lemma NewIsPaid(built: PlanRec)
    requires NewPlan(built)
    ensures Paid(NewWatched(built))
  {
    NewIsEvidenced(built);
    hide Evidenced, WellFormed, Untouched;
  }

  lemma LegalInit(w: Watched, contract: Contract, events: seq<Event>)
    requires LegalRun(w, contract, events) && events != []
    ensures var init := events[..|events| - 1];
      LegalRun(w, contract, init) && Legal(SeenAll(w, contract, init), contract, events[|events| - 1])
      && SeenAll(w, contract, events) == Seen(SeenAll(w, contract, init), contract, events[|events| - 1])
  {
  }

  lemma {:induction false} RunPays(built: PlanRec, contract: Contract, events: seq<Event>)
    requires NewPlan(built) && LegalRun(NewWatched(built), contract, events) && NoRestart(events)
    ensures Paid(SeenAll(NewWatched(built), contract, events))
  {
    if events == [] {
      NewIsPaid(built);
    } else {
      LegalInit(NewWatched(built), contract, events);
      hide Seen, Paid, Legal, NewPlan, LegalRun, SeenAll;
      RunPays(built, contract, events[..|events| - 1]);
      SeenPays(SeenAll(NewWatched(built), contract, events[..|events| - 1]), contract, events[|events| - 1]);
    }
  }

  /** Until the user restarts it, whatever the model, the tools and the verdicts do: no task is intervened on
      three times before the fourth round spent on it, and no repair, which starts with two of its three
      interventions spent, before its second. Three rejected claims take three rounds. */
  lemma GivingUpTakesRounds(built: PlanRec, contract: Contract, events: seq<Event>, i: nat)
    requires NewPlan(built) && LegalRun(NewWatched(built), contract, events) && NoRestart(events)
    requires i < |SeenAll(NewWatched(built), contract, events).job.plan.tasks|
    ensures var w := SeenAll(NewWatched(built), contract, events);
      var t := w.job.plan.tasks[i]; var worked := RoundsOn(w.worked, t.id);
      && t.attempts <= worked <= w.rounds
      && (t.interventions >= MAX_INTERVENTIONS_PER_TASK ==> worked >= if t.isRecovery then 2 else 4)
      && (t.status.Failed? || t.isRecovery ==> w.rounds >= 3)
  {
    RunPays(built, contract, events);
    hide Evidenced, LegalRun, SeenAll, NewPlan;
    var w := SeenAll(NewWatched(built), contract, events);
    assert Earned(w.job.plan.tasks[i], RoundsOn(w.worked, w.job.plan.tasks[i].id), w.rounds);
  }

  // ---- no early mistake ----

  lemma NothingGivenUp(w: Watched, input: RoundInput)
    requires Paid(w) && w.rounds <= 2
    ensures !GivesUp(w.job, input) && !AnyFailed(w.job.plan)
  {
    if Current(w.job.plan) >= 0 {
      PaidMeans(w);
    }
    hide Current, Evidenced, InterventionDue, Untouched;
  }

  lemma DoneRoundIsClean(w: Watched, contract: Contract, round: int, input: RoundInput)
    requires Paid(w) && w.rounds <= 2 && w.job.status.Running?
    requires ReportsDone(Round(w.job, contract, round, input))
    ensures var p := Round(w.job, contract, round, input).plan; (p.tasks == [] || IsComplete(p)) && !AnyFailed(p)
  {
    NothingGivenUp(w, input);
    assert Inv(w.job);
    hide *;
    DoneRound(w.job, contract, round, input);
    DoneWithFailedTask(w.job, contract, round, input);
  }

  /** Only a round can make a job report done. */
  lemma RoundReports(w: Watched, contract: Contract, e: Event)
    requires Legal(w, contract, e) && ReportsDone(Seen(w, contract, e).job)
    ensures e.RoundAt? && w.job.status.Running? && Seen(w, contract, e).job == Round(w.job, contract, e.round, e.input)
    ensures Seen(w, contract, e).rounds == w.rounds + 1
  {
    hide VerdictsPossible, Round, WindowAfter, WorkedAfter;
  }

  lemma NotDoneYet(built: PlanRec, contract: Contract)
    ensures !ReportsDone(SeenAll(NewWatched(built), contract, []).job)
  {
  }

  /** A job that reports done within three rounds has completed its plan, if it has one, and failed none of its
      tasks. In the fourth round both can go wrong. */
  lemma DoneInThreeIsClean(built: PlanRec, contract: Contract, events: seq<Event>)
    requires NewPlan(built) && LegalRun(NewWatched(built), contract, events) && NoRestart(events)
    requires var w := SeenAll(NewWatched(built), contract, events); ReportsDone(w.job) && w.rounds <= 3
    ensures var p := SeenAll(NewWatched(built), contract, events).job.plan; (p.tasks == [] || IsComplete(p)) && !AnyFailed(p)
  {
    hide *;
    NotDoneYet(built, contract);
    var init, e := events[..|events| - 1], events[|events| - 1];
    LegalInit(NewWatched(built), contract, events);
    RestartFreeInit(events);
    RunPays(built, contract, init);
    var w := SeenAll(NewWatched(built), contract, init);
    RoundReports(w, contract, e);
    DoneRoundIsClean(w, contract, e.round, e.input);
  }

  lemma RestartFreeInit(events: seq<Event>)
    requires NoRestart(events) && events != []
    ensures NoRestart(events[..|events| - 1])
  {
  }
}
