/** Which runs of a job the program can make: rounds in turn and within the budget, continuations only
    where the loop makes them or the user may ask for them, and verdicts only as the validators and the
    progress window can give them. */
module LegalRuns {
  import opened PlanModel
  import opened JobModel
  import opened JobRuns
  import opened JobLoop

  const MAX_RECENT: nat := 6
  const THRASHING_WINDOW: nat := 3

  /** A job with what its run has left outside of it: the number of the next round, how many signals are in
      the controller's progress window, how many rounds were run, and how many of them for each task. */
  datatype Watched = Watched(job: JobRec, next: int, window: nat, rounds: nat, worked: map<string, nat>)

  function RoundsOn(worked: map<string, nat>, id: string): nat {
    if id in worked then worked[id] else 0
  }

  /** The round has a task to work on. */
  predicate WorksOn(s: JobRec, input: RoundInput) {
    !s.cancelled && !input.cancel && Current(s.plan) >= 0
  }

  /** The window when the verdict on thrashing is given: beginning a task has cleared it. */
  function WindowAtTop(w: Watched): nat
    requires Current(w.job.plan) >= 0
  {
    if w.job.plan.tasks[Current(w.job.plan)].status.InProgress? then w.window else 0
  }

  /** This round's own intervention abandons the task the round is for: it is due, and it is the last. */
  predicate GivesUp(s: JobRec, input: RoundInput) {
    var c := Current(s.plan);
    && WorksOn(s, input)
    && InterventionDue(s.plan.tasks[c], input.thrashing)
    && s.plan.tasks[c].interventions + 1 >= MAX_INTERVENTIONS_PER_TASK
  }

  /** The round is put on record for its task, in the window as well as in the task's counters. */
  predicate Recorded(s: JobRec, input: RoundInput) {
    WorksOn(s, input) && (input.outcome.ToolRound? || (input.outcome.FinalAnswer? && !GivesUp(s, input)))
  }

  function WindowAfter(w: Watched, input: RoundInput): nat {
    if !WorksOn(w.job, input) then w.window
    else
      var t := w.job.plan.tasks[Current(w.job.plan)];
      var kept := if InterventionDue(t, input.thrashing) then 0 else WindowAtTop(w);
      if Recorded(w.job, input) && kept < MAX_RECENT then kept + 1 else kept
  }

  function WorkedAfter(w: Watched, input: RoundInput): map<string, nat> {
    if !WorksOn(w.job, input) then w.worked
    else
      var id := w.job.plan.tasks[Current(w.job.plan)].id;
      w.worked[id := RoundsOn(w.worked, id) + 1]
  }

  /** Every entry to the loop goes on after the last round, with a new controller and so an empty window. */
  function Seen(w: Watched, contract: Contract, e: Event): (w': Watched)
    ensures w'.job == Apply(w.job, contract, e)
  {
    var job := Apply(w.job, contract, e);
    match e
    case RoundAt(r, input) =>
      if w.job.status.Running? then Watched(job, r + 1, WindowAfter(w, input), w.rounds + 1, WorkedAfter(w, input)) else w
    case Exhaust => w.(job := job)
    case Resume(_) => if CanResume(w.job) then w.(job := job, next := job.round + 1, window := 0) else w
    case Restart => if CanRestart(w.job) then w.(job := job, next := job.round + 1, window := 0) else w
  }

  function SeenAll(w: Watched, contract: Contract, events: seq<Event>): Watched {
    if events == [] then w else Seen(SeenAll(w, contract, events[..|events| - 1]), contract, events[|events| - 1])
  }

  function NewWatched(built: PlanRec): Watched {
    Watched(Entered(Planned(NewJob, built)), 0, 0, 0, map[])
  }

  // ---- what the loop can do ----

  /** Rounds come in turn, up to the budget; a mechanical stop is continued automatically as long as the cap
      allows and by the user only then. */
  predicate InLoop(w: Watched, contract: Contract, e: Event) {
    match e
    case RoundAt(r, _) => w.job.status.Running? && r == w.next && r < w.job.roundBudget
    case Exhaust => w.job.status.Running? && w.next >= w.job.roundBudget
    case Resume(automatic) => CanResume(w.job) && automatic == AutoContinues(w.job, contract)
    case Restart => CanRestart(w.job)
  }

  // ---- what the verdicts can be ----

  /** Thrashing is a statement about three recorded rounds, a task without validators passes its checks, and
      a round is only cut on characters over its limit. */
  predicate VerdictsPossible(w: Watched, e: Event) {
    e.RoundAt? && w.job.status.Running? ==>
      var top := AtTop(w.job, e.round, e.input);
      && (WorksOn(w.job, e.input) && e.input.thrashing ==> WindowAtTop(w) >= THRASHING_WINDOW)
      && (e.input.outcome.FinalAnswer? && top.Go? && top.active >= 0 && top.s.plan.tasks[top.active].validators == [] ==>
            e.input.outcome.checksPass)
      && Possible(w.job, e.round, e.input)
  }

  /** In a round that then stalls, thrashing can be found exactly if three rounds are on record. */
  lemma ThrashingIff(w: Watched, round: int, input: RoundInput)
    requires w.job.status.Running? && WorksOn(w.job, input) && input.outcome.Stall?
    ensures VerdictsPossible(w, RoundAt(round, input)) <==> !input.thrashing || WindowAtTop(w) >= 3
  {
    hide Current, AtTop, WindowAtTop;
  }

  predicate Legal(w: Watched, contract: Contract, e: Event) {
    InLoop(w, contract, e) && VerdictsPossible(w, e)
  }

  predicate LegalRun(w: Watched, contract: Contract, events: seq<Event>) {
    events == []
    || (LegalRun(w, contract, events[..|events| - 1])
        && Legal(SeenAll(w, contract, events[..|events| - 1]), contract, events[|events| - 1]))
  }

  predicate InLoopRun(w: Watched, contract: Contract, events: seq<Event>) {
    events == []
    || (InLoopRun(w, contract, events[..|events| - 1])
        && InLoop(SeenAll(w, contract, events[..|events| - 1]), contract, events[|events| - 1]))
  }

  // ---- composing runs ----

  lemma {:induction false} SeenConcat(w: Watched, contract: Contract, a: seq<Event>, b: seq<Event>)
    ensures SeenAll(w, contract, a + b) == SeenAll(SeenAll(w, contract, a), contract, b)
    ensures LegalRun(w, contract, a + b) <==> LegalRun(w, contract, a) && LegalRun(SeenAll(w, contract, a), contract, b)
    ensures InLoopRun(w, contract, a + b) <==> InLoopRun(w, contract, a) && InLoopRun(SeenAll(w, contract, a), contract, b)
    decreases |b|
  {
    hide Seen, Legal, InLoop;
    if b == [] {
      assert a + b == a;
    } else {
      assert (a + b)[..|a + b| - 1] == a + b[..|b| - 1];
      SeenConcat(w, contract, a, b[..|b| - 1]);
    }
  }

  lemma SeenOne(w: Watched, contract: Contract, e: Event)
    ensures SeenAll(w, contract, [e]) == Seen(w, contract, e)
    ensures LegalRun(w, contract, [e]) <==> Legal(w, contract, e)
    ensures InLoopRun(w, contract, [e]) <==> InLoop(w, contract, e)
  {
    hide Seen, Legal, InLoop;
    assert [e][..0] == [];
    assert SeenAll(w, contract, []) == w && LegalRun(w, contract, []) && InLoopRun(w, contract, []);
  }

  /** One more event. */
  lemma SeenThen(w: Watched, contract: Contract, events: seq<Event>, e: Event) returns (longer: seq<Event>)
    ensures longer == events + [e] && SeenAll(w, contract, longer) == Seen(SeenAll(w, contract, events), contract, e)
    ensures LegalRun(w, contract, longer) <==> LegalRun(w, contract, events) && Legal(SeenAll(w, contract, events), contract, e)
  {
    longer := events + [e];
    assert longer[..|longer| - 1] == events;
  }

  /** The job in such a run is the job of the event system. */
  lemma {:induction false} SeenIsAfter(w: Watched, contract: Contract, events: seq<Event>)
    ensures SeenAll(w, contract, events).job == After(w.job, contract, events)
  {
    hide Apply;
    if events != [] {
      var init, last := events[..|events| - 1], events[|events| - 1];
      SeenIsAfter(w, contract, init);
      AfterConcat(w.job, contract, init, [last]);
      assert events == init + [last] && [last][1..] == [];
      assert After(After(w.job, contract, init), contract, [last]) == Apply(After(w.job, contract, init), contract, last);
    }
  }

  lemma {:induction false} PossibleThen(s: JobRec, contract: Contract, events: seq<Event>, e: Event)
    requires RunPossible(s, contract, events) && EventPossible(After(s, contract, events), e)
    ensures RunPossible(s, contract, events + [e])
    decreases |events|
  {
    hide Apply, EventPossible;
    if events == [] {
      assert events + [e] == [e] && [e][1..] == [];
    } else {
      assert (events + [e])[1..] == events[1..] + [e];
      PossibleThen(Apply(s, contract, events[0]), contract, events[1..], e);
    }
  }

  /** So the bounds on counted rounds hold of such a run. */
  lemma {:induction false} LegalIsPossible(w: Watched, contract: Contract, events: seq<Event>)
    requires LegalRun(w, contract, events)
    ensures RunPossible(w.job, contract, events)
  {
    hide Seen, Apply, Possible, InLoop;
    if events != [] {
      var init, last := events[..|events| - 1], events[|events| - 1];
      LegalIsPossible(w, contract, init);
      SeenIsAfter(w, contract, init);
      PossibleThen(w.job, contract, init, last);
      assert events == init + [last];
    }
  }

  // ---- the loop makes only such runs ----

  lemma {:induction false} RoundsInLoop(w: Watched, contract: Contract, round: int, limit: int, inputs: Oracle, k: nat)
    requires w.job.status.Running? && w.next == round && limit == w.job.roundBudget
    ensures InLoopRun(w, contract, Rounds(w.job, contract, round, limit, inputs, k).events)
    decreases limit - round
  {
    hide Round, WindowAfter, WorkedAfter, InLoopRun;
    var r := Rounds(w.job, contract, round, limit, inputs, k);
    if round >= limit {
      SeenOne(w, contract, Exhaust);
    } else {
      var e := RoundAt(round, inputs(k));
      var w1 := Seen(w, contract, e);
      RoundKeepsCounters(w.job, contract, round, inputs(k));
      SeenOne(w, contract, e);
      if w1.job.status.Running? {
        RoundsInLoop(w1, contract, round + 1, limit, inputs, k + 1);
        SeenConcat(w, contract, [e], Rounds(w1.job, contract, round + 1, limit, inputs, k + 1).events);
      }
    }
  }

  lemma JoinedInLoop(w: Watched, contract: Contract, a: seq<Event>, e: Event, b: seq<Event>)
    requires InLoopRun(w, contract, a) && InLoop(SeenAll(w, contract, a), contract, e)
    requires InLoopRun(Seen(SeenAll(w, contract, a), contract, e), contract, b)
    ensures InLoopRun(w, contract, a + [e] + b)
  {
    hide Seen, SeenAll, InLoop, InLoopRun;
    SeenOne(SeenAll(w, contract, a), contract, e);
    SeenConcat(w, contract, a, [e]);
    SeenConcat(w, contract, a + [e], b);
  }

  /** Re-entering the loop on its own is in the loop. */
  lemma ContinuedInLoop(w: Watched, contract: Contract)
    requires AutoContinues(w.job, contract)
    ensures InLoop(w, contract, Resume(true))
    ensures var w', next := Seen(w, contract, Resume(true)), AutoContinued(w.job);
      w'.job == Entered(next) && w'.next == FirstRoundNumber(w'.job, true) && next.status.Running?
  {
    ResumeIsContinue(w.job, contract);
  }

  /** Whatever `_run` does keeps to these rules. */
  lemma {:induction false} RunIsInLoop(s: JobRec, w: Watched, contract: Contract, built: PlanRec, resuming: bool, inputs: Oracle, k: nat)
    requires s.status.Running? && w.job == Entered(Planned(s, built)) && w.next == FirstRoundNumber(w.job, resuming)
    ensures InLoopRun(w, contract, RunFrom(s, contract, built, resuming, inputs, k).events)
    decreases AutoCap(contract) - s.autoContinues
  {
    hide Rounds, InLoop, InLoopRun, Apply, Seen, SeenAll;
    RoundsInLoop(w, contract, w.next, w.job.roundBudget, inputs, k);
    RoundsAreEvents(w.job, contract, w.next, w.job.roundBudget, inputs, k);
    LoopKeepsCounters(s, contract, built, resuming, inputs, k);
    var first := Loop(s, contract, built, resuming, inputs, k);
    if AutoContinues(first.s, contract) {
      var w1 := SeenAll(w, contract, first.events);
      SeenIsAfter(w, contract, first.events);
      ContinuedInLoop(w1, contract);
      var next := AutoContinued(first.s);
      RunIsInLoop(next, Seen(w1, contract, Resume(true)), contract, built, true, inputs, k + |first.events|);
      var rest := RunFrom(next, contract, built, true, inputs, k + |first.events|);
      JoinedInLoop(w, contract, first.events, Resume(true), rest.events);
    }
  }
}
