/** Why the number of re-entries belongs in the bound on counted rounds: a cut round charges its
    characters to the live task only, and the loop re-enters on the plan saved before the cut. */
module ForgottenCuts {
  import opened PlanModel
  import opened JobModel
  import opened JobRuns
  import opened JobLoop
  import opened LegalRuns
  import PlanBuilder

  // ---- runs and what they count ----

  /** The program can make this run, it leads there, and this many of its rounds count. */
  ghost predicate Leads(w: Watched, contract: Contract, events: seq<Event>, counted: nat, w': Watched) {
    && LegalRun(w, contract, events) && SeenAll(w, contract, events) == w'
    && CountedRounds(w.job, contract, events) == counted
  }

  lemma {:induction false} CountedConcat(s: JobRec, contract: Contract, a: seq<Event>, b: seq<Event>)
    ensures CountedRounds(s, contract, a + b) == CountedRounds(s, contract, a) + CountedRounds(After(s, contract, a), contract, b)
    decreases |a|
  {
    hide Apply, EventCount;
    if a == [] {
      assert a + b == b;
    } else {
      assert (a + b)[1..] == a[1..] + b;
      CountedConcat(Apply(s, contract, a[0]), contract, a[1..], b);
    }
  }

  lemma LeadsOn(w: Watched, contract: Contract, a: seq<Event>, m: nat, w1: Watched, b: seq<Event>, n: nat, w2: Watched)
    requires Leads(w, contract, a, m, w1) && Leads(w1, contract, b, n, w2)
    ensures Leads(w, contract, a + b, m + n, w2)
  {
    hide LegalRun, SeenAll, CountedRounds;
    SeenConcat(w, contract, a, b);
    CountedConcat(w.job, contract, a, b);
    SeenIsAfter(w, contract, a);
  }

  lemma LeadsOne(w: Watched, contract: Contract, e: Event)
    requires Legal(w, contract, e)
    ensures Leads(w, contract, [e], EventCount(w.job, e), Seen(w, contract, e))
  {
    hide Legal, Seen, EventCount, Apply;
    SeenOne(w, contract, e);
    assert [e][1..] == [];
    assert CountedRounds(Apply(w.job, contract, e), contract, []) == 0;
  }

  lemma LeadsNowhere(w: Watched, contract: Contract)
    ensures Leads(w, contract, [], 0, w)
  {
  }

  // ---- a task being worked on ----

  /** A task is being worked on and is within its limits. */
  predicate WorkingPlan(p: PlanRec) {
    Current(p) >= 0 && p.tasks[Current(p)].status.InProgress? && !InterventionDue(p.tasks[Current(p)], false)
  }

  /** The loop is at a round, on such a plan, and would be re-entered on such a plan. */
  predicate Working(w: Watched) {
    && w.job.status.Running? && !w.job.cancelled && w.next == w.job.round + 1
    && WorkingPlan(w.job.plan) && WorkingPlan(w.job.saved)
  }

  /** It has just been entered. */
  predicate Ready(w: Watched) {
    Working(w) && w.job.plan == w.job.saved && w.job.roundBudget == w.next + MAX_ROUNDS
  }

  function Cut(round: int): Event {
    RoundAt(round, RoundInput(false, [], false, CharacterCut(PLANNING_CHARS + 1)))
  }

  function Timeout(round: int): Event {
    RoundAt(round, RoundInput(false, [], false, WallClockCut(0)))
  }

  lemma CurrentIgnoresCharacters(p: PlanRec, chars: nat)
    requires WorkingPlan(p)
    ensures var c := Current(p); Current(p.With(c, ChargedTask(p.tasks[c], chars))) == c
  {
    var c := Current(p);
    var q := p.With(c, ChargedTask(p.tasks[c], chars));
    assert q.tasks[c].status.InProgress?;
    assert forall i :: 0 <= i < c ==> q.tasks[i] == p.tasks[i];
    CurrentWorks(p);
    var started := FindFirst(p.tasks, (t: TaskRec) => t.status.InProgress?);
    assert started == c;
  }

  /** A round that is cut on such a plan: the live task is charged, the saved plan is not. */
  lemma CutCharges(w: Watched, contract: Contract, e: Event, chars: nat)
    requires Working(w) && w.next < w.job.roundBudget
    requires e == RoundAt(w.next, RoundInput(false, [], false, WallClockCut(chars)))
      || (chars > PLANNING_CHARS && e == RoundAt(w.next, RoundInput(false, [], false, CharacterCut(chars))))
    ensures Legal(w, contract, e) && EventCount(w.job, e) == if e.input.outcome.CharacterCut? then 1 else 0
    ensures var w', c := Seen(w, contract, e), Current(w.job.plan);
      && w'.job == w.job.(plan := w.job.plan.With(c, ChargedTask(w.job.plan.tasks[c], chars)),
                          round := w.next, consecutiveCuts := w.job.consecutiveCuts + 1)
      && w'.next == w.next + 1
  {
    hide Current, WindowAfter, WorkedAfter;
  }

  lemma ChargedKeepsWorking(p: PlanRec, chars: nat)
    requires WorkingPlan(p) && p.tasks[Current(p)].reasoningChars + chars <= MAX_REASONING_CHARS_PER_TASK
    ensures WorkingPlan(p.With(Current(p), ChargedTask(p.tasks[Current(p)], chars)))
  {
    CurrentIgnoresCharacters(p, chars);
    hide Current;
  }

  /** Rounds that hit the wall clock without generating anything change nothing but their number. */
  lemma TimeoutKeeps(w: Watched, contract: Contract)
    requires Working(w) && w.next < w.job.roundBudget
    ensures Legal(w, contract, Timeout(w.next)) && EventCount(w.job, Timeout(w.next)) == 0
    ensures var w' := Seen(w, contract, Timeout(w.next));
      && Working(w') && w'.job.plan == w.job.plan && w'.job.saved == w.job.saved
      && w'.job.roundBudget == w.job.roundBudget && w'.next == w.next + 1
  {
    CutCharges(w, contract, Timeout(w.next), 0);
    hide Current, Legal, Seen, EventCount;
    var c := Current(w.job.plan);
    assert ChargedTask(w.job.plan.tasks[c], 0) == w.job.plan.tasks[c];
    assert w.job.plan.With(c, w.job.plan.tasks[c]) == w.job.plan;
  }

  lemma {:induction false} TimeoutsKeep(w: Watched, contract: Contract) returns (events: seq<Event>, w': Watched)
    requires Working(w) && w.next <= w.job.roundBudget
    ensures Leads(w, contract, events, 0, w') && Working(w') && w'.next == w'.job.roundBudget == w.job.roundBudget
    ensures w'.job.plan == w.job.plan && w'.job.saved == w.job.saved
    decreases w.job.roundBudget - w.next
  {
    if w.next == w.job.roundBudget {
      events, w' := [], w;
      LeadsNowhere(w, contract);
    } else {
      hide Working, Seen, Legal, Leads, EventCount;
      TimeoutKeeps(w, contract);
      LeadsOne(w, contract, Timeout(w.next));
      var w1 := Seen(w, contract, Timeout(w.next));
      var rest;
      rest, w' := TimeoutsKeep(w1, contract);
      LeadsOn(w, contract, [Timeout(w.next)], 0, w1, rest, 0, w');
      events := [Timeout(w.next)] + rest;
    }
  }

  /** At the end of the budget the loop is re-entered on the saved plan, by itself or by the user. */
  lemma ReEntered(w: Watched, contract: Contract) returns (events: seq<Event>, w': Watched)
    requires Working(w) && w.next == w.job.roundBudget
    ensures Leads(w, contract, events, 0, w') && Ready(w') && w'.job.plan == w.job.saved
  {
    var w1 := Seen(w, contract, Exhaust);
    var resume := Resume(AutoContinues(w1.job, contract));
    w' := Seen(w1, contract, resume);
    hide WorkingPlan;
    LeadsOne(w, contract, Exhaust);
    LeadsOne(w1, contract, resume);
    assert Ready(w') && EventCount(w.job, Exhaust) == EventCount(w1.job, resume) == 0;
    hide *;
    LeadsOn(w, contract, [Exhaust], 0, w1, [resume], 0, w');
    events := [Exhaust] + [resume];
  }

  /** One entry of ten rounds counts one round and leaves the plan exactly as it found it, provided the
      charge alone does not bring on an intervention. */
  lemma EntryForgets(w: Watched, contract: Contract) returns (events: seq<Event>, w': Watched)
    requires Ready(w) && w.job.plan.tasks[Current(w.job.plan)].reasoningChars + PLANNING_CHARS < MAX_REASONING_CHARS_PER_TASK
    ensures Leads(w, contract, events, 1, w') && Ready(w') && w'.job.plan == w.job.plan
  {
    var w1 := Seen(w, contract, Cut(w.next));
    CutCharges(w, contract, Cut(w.next), PLANNING_CHARS + 1);
    ChargedKeepsWorking(w.job.plan, PLANNING_CHARS + 1);
    LeadsOne(w, contract, Cut(w.next));
    assert Working(w1) && w1.next <= w1.job.roundBudget && w1.job.saved == w.job.plan;
    hide *;
    var timeouts, w2 := TimeoutsKeep(w1, contract);
    LeadsOn(w, contract, [Cut(w.next)], 1, w1, timeouts, 0, w2);
    var again;
    again, w' := ReEntered(w2, contract);
    LeadsOn(w, contract, [Cut(w.next)] + timeouts, 1, w2, again, 0, w');
    events := [Cut(w.next)] + timeouts + again;
  }

  /** So no bound on counted rounds can depend on the plan alone: with enough re-entries there are as
      many counted rounds as one likes, on one task, without a single intervention. */
  lemma {:induction false} CutsAreForgotten(w: Watched, contract: Contract, m: nat) returns (events: seq<Event>, w': Watched)
    requires Ready(w) && w.job.plan.tasks[Current(w.job.plan)].reasoningChars + PLANNING_CHARS < MAX_REASONING_CHARS_PER_TASK
    ensures Leads(w, contract, events, m, w') && Ready(w') && w'.job.plan == w.job.plan
    decreases m
  {
    if m == 0 {
      events, w' := [], w;
      LeadsNowhere(w, contract);
    } else {
      hide Leads, Ready;
      var first, w1 := EntryForgets(w, contract);
      assert Ready(w1);
      var rest;
      rest, w' := CutsAreForgotten(w1, contract, m - 1);
      LeadsOn(w, contract, first, 1, w1, rest, m - 1, w');
      events := first + rest;
    }
  }

  /** Starting on a task in a round that generates nothing gives a job to which this applies. */
  lemma StartedIsWorking(w: Watched, contract: Contract)
    requires w.job.status.Running? && !w.job.cancelled && w.job.plan == w.job.saved && w.next < w.job.roundBudget
    requires Current(w.job.plan) == 0 && w.job.plan.tasks[0].status.Pending? && !InterventionDue(w.job.plan.tasks[0], false)
    ensures var w' := Seen(w, contract, Timeout(w.next));
      && Legal(w, contract, Timeout(w.next)) && EventCount(w.job, Timeout(w.next)) == 0
      && Working(w') && w'.next == w.next + 1 && w'.job.roundBudget == w.job.roundBudget && w'.job.plan == w'.job.saved
      && |w'.job.plan.tasks| == |w.job.plan.tasks| && Current(w'.job.plan) == 0
      && w'.job.plan.tasks[0].reasoningChars == w.job.plan.tasks[0].reasoningChars
  {
    var w', t := Seen(w, contract, Timeout(w.next)), WithValidators(StartedTask(w.job.plan.tasks[0]), []);
    assert ChargedTask(t, 0) == t;
    assert w.job.plan.With(0, t).With(0, t) == w.job.plan.With(0, t) by { WithTwice(w.job.plan, 0, t, t); }
    hide IsReady, WindowAfter, WorkedAfter;
    assert w'.job.plan == w.job.plan.With(0, t);
  }

  lemma NewJobStarts(entries: seq<PlanBuilder.Entry>, infer: PlanBuilder.Inference)
    requires entries != []
    ensures var w := NewWatched(PlanRec(PlanBuilder.Built(entries, infer), 0));
      && w.job.status.Running? && !w.job.cancelled && w.job.plan == w.job.saved && w.next < w.job.roundBudget
      && Current(w.job.plan) == 0 && w.job.plan.tasks[0].status.Pending? && !InterventionDue(w.job.plan.tasks[0], false)
      && |w.job.plan.tasks| == |entries| && w.job.plan.tasks[0].reasoningChars == 0
  {
    PlanBuilder.BuiltBegins(entries, infer);
    hide Current;
  }

  /** New jobs get there: for every plan a builder makes, every contract and every m the program can make a run
      from the start of the job that counts m rounds and leaves the plan with its first task just started. */
  lemma NewJobForgets(entries: seq<PlanBuilder.Entry>, infer: PlanBuilder.Inference, contract: Contract, m: nat)
      returns (events: seq<Event>, w': Watched)
    requires entries != []
    ensures Leads(NewWatched(PlanRec(PlanBuilder.Built(entries, infer), 0)), contract, events, m, w')
    ensures Ready(w') && |w'.job.plan.tasks| == |entries| && Current(w'.job.plan) == 0
  {
    var w := NewWatched(PlanRec(PlanBuilder.Built(entries, infer), 0));
    NewJobStarts(entries, infer);
    StartedIsWorking(w, contract);
    var w1 := Seen(w, contract, Timeout(w.next));
    assert w1.next <= w1.job.roundBudget;
    var limit := MAX_REASONING_CHARS_PER_TASK - PLANNING_CHARS;
    assert 0 < limit;
    hide *;
    LeadsOne(w, contract, Timeout(w.next));
    var timeouts, w2 := TimeoutsKeep(w1, contract);
    LeadsOn(w, contract, [Timeout(w.next)], 0, w1, timeouts, 0, w2);
    var again, w3 := ReEntered(w2, contract);
    LeadsOn(w, contract, [Timeout(w.next)] + timeouts, 0, w2, again, 0, w3);
    var rest;
    rest, w' := CutsAreForgotten(w3, contract, m);
    LeadsOn(w, contract, [Timeout(w.next)] + timeouts + again, 0, w3, rest, m, w');
    events := [Timeout(w.next)] + timeouts + again + rest;
  }
}
