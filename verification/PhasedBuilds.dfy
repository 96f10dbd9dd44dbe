/** A build as a chain of phases, each done by one job. The runner can be interrupted by a crash at any
    step: the build in memory and the live jobs are lost, what was checkpointed stays. A run is any
    sequence of the runner's steps, job progress, cancellations, crashes and restarts. */
module PhasedBuilds {

  datatype Option<T> = None | Some(value: T)

  datatype PhaseStatus = Pending | Running | Done | Failed(detail: Detail) | Stopped

  datatype Detail = JobErrored | JobDisappeared

  datatype Phase = Phase(job: Option<nat>, status: PhaseStatus)

  datatype BuildStatus = Planning | Active | Complete | Broken | Cancelled

  datatype Build = Build(phases: seq<Phase>, status: BuildStatus, cancelled: bool) {
    function With(i: nat, p: Phase): Build
      requires i < |phases|
    {
      this.(phases := phases[i := p])
    }

    /** Cancelled by the user; a build that already ended keeps the status it ended with. */
    function Stopping(): Build {
      this.(cancelled := true, status := if status.Planning? || status.Active? then Cancelled else status)
    }
  }

  datatype JobStatus = JobRunning | JobDone | JobFailed

  /** `live` is the running process's view of a job, `saved` its own last checkpoint. */
  datatype Job = Job(live: Option<JobStatus>, saved: Option<JobStatus>)

  /** Where the runner is: about to look at phase i, about to enter it, about to find or create its job,
      about to save the new job's id, about to start it, waiting for it, about to act on how it ended;
      gone for good, or killed by a crash. */
  datatype Runner =
    | Look(i: nat) | Enter(i: nat) | Launch(i: nat) | Record(i: nat) | Begin(i: nat) | Wait(i: nat)
    | Act(i: nat, end: Option<JobStatus>) | Finish | Gone | Crashed

  /** `starts` lists (phase, job) for every job ever started. */
  datatype State = State(runner: Runner, build: Build, disk: Build, jobs: seq<Job>, starts: seq<(nat, nat)>)

  /** `saved` says whether the checkpoint of this step reached the disk. */
  datatype Step =
    | Advance(saved: bool)
    | JobSaves(job: nat)
    | JobEnds(job: nat, ok: bool)
    | Cancel(saved: bool)
    | Crash
    | Restart

  function Checkpointed(s: State, saved: bool): State {
    if saved then s.(disk := s.build) else s
  }

  predicate Known(jobs: seq<Job>, j: nat) {
    j < |jobs| && (jobs[j].live.Some? || jobs[j].saved.Some?)
  }

  /** `resume`: a live job is left alone, a saved one is picked up from its checkpoint, any other is
      nowhere to be found. */
  function ResumedJob(job: Job): Job {
    if job.live.Some? then job else job.(live := job.saved)
  }

  function JobAt(s: State, i: nat): Option<nat> {
    if i < |s.build.phases| then s.build.phases[i].job else None
  }

  predicate AtPhase(s: State, i: nat) {
    i < |s.build.phases|
  }

  /** The status `get` reports for a job: the live one, else the saved one; an interrupted job counts as
      still running. */
  function Reported(jobs: seq<Job>, j: nat): Option<JobStatus> {
    if j >= |jobs| then None else if jobs[j].live.Some? then jobs[j].live else jobs[j].saved
  }

  /** One step of the runner. */
  function Advanced(s: State, saved: bool): State {
    match s.runner
    case Look(i) =>
      if i >= |s.build.phases| then s.(runner := Finish)
      else if s.build.phases[i].status.Done? then s.(runner := Look(i + 1))
      else if s.build.cancelled then Checkpointed(s.(build := s.build.(status := Cancelled), runner := Gone), saved)
      else s.(runner := Enter(i))
    case Enter(i) =>
      if !AtPhase(s, i) then s
      else
        var b := s.build.With(i, s.build.phases[i].(status := Running)).(status := Active);
        Checkpointed(s.(build := b, runner := Launch(i)), saved)
    case Launch(i) =>
      if !AtPhase(s, i) then s
      else if s.build.phases[i].job.Some? then
        var j := s.build.phases[i].job.value;
        s.(jobs := if j < |s.jobs| then s.jobs[j := ResumedJob(s.jobs[j])] else s.jobs, runner := Wait(i))
      else
        s.(build := s.build.With(i, s.build.phases[i].(job := Some(|s.jobs|))),
           jobs := s.jobs + [Job(Some(JobRunning), None)], runner := Record(i))
    case Record(i) => Checkpointed(s.(runner := Begin(i)), saved)
    case Begin(i) =>
      if JobAt(s, i).None? then s else s.(starts := s.starts + [(i, JobAt(s, i).value)], runner := Wait(i))
    case Wait(i) =>
      if JobAt(s, i).None? then s
      else
        var status := Reported(s.jobs, JobAt(s, i).value);
        if status == Some(JobRunning) then s else s.(runner := Act(i, status))
    case Act(i, end) =>
      if !AtPhase(s, i) then s
      else if s.build.cancelled then
        Checkpointed(s.(build := s.build.With(i, s.build.phases[i].(status := Stopped)).(status := Cancelled), runner := Gone), saved)
      else if end.None? then
        Checkpointed(s.(build := s.build.With(i, s.build.phases[i].(status := Failed(JobDisappeared))).(status := Broken), runner := Gone), saved)
      else if end != Some(JobDone) then
        Checkpointed(s.(build := s.build.With(i, s.build.phases[i].(status := Failed(JobErrored))).(status := Broken), runner := Gone), saved)
      else
        Checkpointed(s.(build := s.build.With(i, s.build.phases[i].(status := Done)), runner := Look(i + 1)), saved)
    case Finish => Checkpointed(s.(build := s.build.(status := Complete), runner := Gone), saved)
    case Gone => s
    case Crashed => s
  }

  /** `resume_unfinished` takes up this build again. */
  predicate Resumable(disk: Build) {
    (disk.status.Planning? || disk.status.Active?) && !disk.cancelled && disk.phases != []
  }

  function Next(s: State, step: Step): State {
    match step
    case Advance(saved) => Advanced(s, saved)
    case JobSaves(j) => if j < |s.jobs| && s.jobs[j].live.Some? then s.(jobs := s.jobs[j := s.jobs[j].(saved := s.jobs[j].live)]) else s
    case JobEnds(j, ok) =>
      if j < |s.jobs| && s.jobs[j].live == Some(JobRunning) then
        s.(jobs := s.jobs[j := s.jobs[j].(live := Some(if ok then JobDone else JobFailed))])
      else s
    case Cancel(saved) =>
      if s.runner.Crashed? then (if saved then s.(disk := s.disk.Stopping()) else s)
      else Checkpointed(s.(build := s.build.Stopping()), saved)
    case Crash => s.(runner := Crashed, jobs := seq(|s.jobs|, j requires 0 <= j < |s.jobs| => s.jobs[j].(live := None)))
    case Restart =>
      if !s.runner.Crashed? then s
      else
        s.(build := s.disk,
           runner := if Resumable(s.disk) then Look(0) else Gone)
  }

  function After(s: State, steps: seq<Step>): State {
    if steps == [] then s else Next(After(s, steps[..|steps| - 1]), steps[|steps| - 1])
  }

  function Started(n: nat): State {
    var b := Build(seq(n, i => Phase(None, Pending)), Planning, false);
    State(Look(0), b, b, [], [])
  }

  lemma NoSteps(s: State)
    ensures After(s, []) == s
  {
  }

  /** One more step of a run. */
  lemma Then(s: State, steps: seq<Step>, step: Step) returns (longer: seq<Step>)
    ensures longer == steps + [step] && After(s, longer) == Next(After(s, steps), step)
  {
    longer := steps + [step];
    assert longer[..|longer| - 1] == steps;
  }

  lemma OneStep(s: State, step: Step)
    ensures After(s, [step]) == Next(s, step)
  {
    assert [step][..0] == [];
  }

  lemma TwoSteps(s: State, first: Step, second: Step)
    ensures After(s, [first, second]) == Next(Next(s, first), second)
  {
    assert [first, second][..1] == [first];
    OneStep(s, first);
  }

  lemma {:induction false} AfterConcat(s: State, a: seq<Step>, b: seq<Step>)
    ensures After(s, a + b) == After(After(s, a), b)
  {
    hide Next;
    if b == [] {
      assert a + b == a;
    } else {
      assert (a + b)[..|a + b| - 1] == a + b[..|b| - 1];
      AfterConcat(s, a, b[..|b| - 1]);
    }
  }

  // ---- the invariant ----

  predicate DoneBefore(b: Build, i: nat) {
    i <= |b.phases| && forall k :: 0 <= k < i ==> b.phases[k].status.Done?
  }

  /** Finished phases come first, and a finished build has finished all of them. */
  ghost predicate Sequential(b: Build) {
    && (forall j, k :: 0 <= j < k < |b.phases| && b.phases[k].status.Done? ==> b.phases[j].status.Done?)
    && (b.status.Complete? ==> DoneBefore(b, |b.phases|))
  }

  /** Every started job is the one recorded for its phase, phases are started in order, and everything
      before a started phase is recorded as done. */
  ghost predicate StartsRecorded(disk: Build, starts: seq<(nat, nat)>) {
    && (forall a :: 0 <= a < |starts| ==>
          starts[a].0 < |disk.phases| && disk.phases[starts[a].0].job == Some(starts[a].1) && DoneBefore(disk, starts[a].0))
    && forall a, b :: 0 <= a < b < |starts| ==> starts[a].0 < starts[b].0
  }

  predicate NotStarted(starts: seq<(nat, nat)>, i: nat) {
    forall a :: 0 <= a < |starts| ==> starts[a].0 != i
  }

  predicate Underway(b: Build, i: nat) {
    DoneBefore(b, i) && i < |b.phases| && !b.phases[i].status.Done?
  }

  /** Wherever the runner is, the phases before it are done. */
  ghost predicate InOrder(s: State) {
    && Sequential(s.disk) && (!s.runner.Crashed? ==> Sequential(s.build))
    && match s.runner
       case Look(i) => DoneBefore(s.build, i)
       case Finish => DoneBefore(s.build, |s.build.phases|)
       case Gone => true
       case Crashed => true
       case _ => Underway(s.build, s.runner.i)
  }

  lemma SequentialWith(b: Build, i: nat, p: Phase, status: BuildStatus)
    requires Sequential(b) && Underway(b, i) && !status.Complete?
    ensures Sequential(b.With(i, p).(status := status))
    ensures p.status.Done? ==> DoneBefore(b.With(i, p), i + 1)
    ensures !p.status.Done? ==> Underway(b.With(i, p), i)
  {
  }

  lemma UnderwayIsIncomplete(b: Build, i: nat)
    requires Sequential(b) && Underway(b, i)
    ensures !b.status.Complete?
  {
  }

  /** Phases are finished in order whatever happens, lost checkpoints included. */
  lemma StepKeepsOrder(s: State, step: Step)
    requires InOrder(s)
    ensures InOrder(Next(s, step))
  {
    if step.Advance? {
      AdvanceKeepsOrder(s, step.saved);
    }
  }

  lemma AdvanceKeepsOrder(s: State, saved: bool)
    requires InOrder(s)
    ensures InOrder(Advanced(s, saved))
  {
    hide Reported, ResumedJob;
    match s.runner {
      case Enter(i) => SequentialWith(s.build, i, s.build.phases[i].(status := Running), Active);
      case Launch(i) =>
        UnderwayIsIncomplete(s.build, i);
        SequentialWith(s.build, i, s.build.phases[i].(job := Some(|s.jobs|)), s.build.status);
      case Act(i, end) =>
        UnderwayIsIncomplete(s.build, i);
        hide Sequential, Underway;
        SequentialWith(s.build, i, s.build.phases[i].(status := Stopped), Cancelled);
        SequentialWith(s.build, i, s.build.phases[i].(status := Failed(JobDisappeared)), Broken);
        SequentialWith(s.build, i, s.build.phases[i].(status := Failed(JobErrored)), Broken);
        SequentialWith(s.build, i, s.build.phases[i].(status := Done), s.build.status);
      case _ =>
    }
  }

  lemma {:induction false} RunKeepsOrder(n: nat, steps: seq<Step>)
    ensures InOrder(After(Started(n), steps))
  {
    hide Next, InOrder;
    if steps == [] {
      StartsInOrder(n);
    } else {
      RunKeepsOrder(n, steps[..|steps| - 1]);
      StepKeepsOrder(After(Started(n), steps[..|steps| - 1]), steps[|steps| - 1]);
    }
  }

  lemma StartsInOrder(n: nat)
    ensures Inv(Started(n))
  {
  }

  /** A build is only ever reported complete, in memory or on disk, with every phase done; this does not
      even depend on the checkpoints. */
  lemma CompleteMeansAllDone(n: nat, steps: seq<Step>)
    ensures var s := After(Started(n), steps);
      && (s.disk.status.Complete? ==> DoneBefore(s.disk, |s.disk.phases|))
      && (!s.runner.Crashed? && s.build.status.Complete? ==> DoneBefore(s.build, |s.build.phases|))
  {
    RunKeepsOrder(n, steps);
  }

  // ---- how phases end ----

  /** A phase is only ever recorded as anything else by the runner, for the way its job ended: as done if the job
      is, as failed if it failed or is nowhere to be found, and as stopped if the build was cancelled. */
  lemma PhaseEndsIff(s: State, step: Step, i: nat)
    requires i < |s.build.phases| && !step.Restart?
    ensures var phases := Next(s, step).build.phases; var settles := step.Advance? && s.runner.Act? && s.runner.i == i;
      && |phases| == |s.build.phases|
      && (settles && s.build.cancelled ==> phases[i].status == Stopped)
      && (settles && !s.build.cancelled ==> (s.runner.end == Some(JobDone) <==> phases[i].status == Done))
      && (settles && !s.build.cancelled && s.runner.end == None ==> phases[i].status == Failed(JobDisappeared))
      && (settles && !s.build.cancelled && s.runner.end.Some? && s.runner.end.value != JobDone ==> phases[i].status == Failed(JobErrored))
      && (!settles ==> phases[i].status == s.build.phases[i].status || (step.Advance? && s.runner == Enter(i) && phases[i].status == Running))
  {
    hide Reported, ResumedJob;
  }

  /** The runner acts on what is reported of the job of its phase, and only once it is not running any longer:
      the state of the process if there is one, else what was saved. */
  lemma ActsOnReport(s: State, step: Step)
    requires Next(s, step).runner.Act? && !s.runner.Act?
    ensures var now := Next(s, step).runner; var i := now.i;
      && step.Advance? && s.runner == Wait(i) && i < |s.build.phases| && s.build.phases[i].job.Some?
      && var j := s.build.phases[i].job.value;
        && now.end != Some(JobRunning)
        && now.end == if j >= |s.jobs| then None else if s.jobs[j].live != None then s.jobs[j].live else s.jobs[j].saved
  {
  }

  /** Cancelling a build that has not ended is on record at once, in memory or, after a crash, on disk; a build
      that has ended stays as it ended. */
  lemma CancelMeans(s: State, saved: bool)
    ensures var s' := Next(s, Cancel(saved));
      var was, now := if s.runner.Crashed? then s.disk else s.build, if s.runner.Crashed? then s'.disk else s'.build;
      && now.phases == was.phases && s'.runner == s.runner && s'.jobs == s.jobs && s'.starts == s.starts
      && (s.runner.Crashed? && !saved ==> now == was)
      && (!s.runner.Crashed? || saved ==>
            && now.cancelled
            && (was.status == Planning || was.status == Active ==> now.status == Cancelled)
            && (was.status != Planning && was.status != Active ==> now.status == was.status))
  {
  }

  /** After a crash a build is taken up again, from its first phase on, exactly if what is on disk has phases, has
      neither ended nor failed, and was not cancelled. */
  lemma RestartIff(s: State)
    requires s.runner.Crashed?
    ensures var s' := Next(s, Restart);
      && s'.build == s'.disk == s.disk && s'.jobs == s.jobs && s'.starts == s.starts
      && (s'.runner == Look(0) <==> (s.disk.status == Planning || s.disk.status == Active) && !s.disk.cancelled && |s.disk.phases| > 0)
      && (s'.runner == Look(0) || s'.runner == Gone)
  {
  }

  /** One more job if the runner is already past the check whether the build was cancelled. */
  function MayStart(r: Runner): nat {
    if r.Enter? || r.Launch? || r.Record? || r.Begin? then 1 else 0
  }

  lemma StepAfterCancel(s: State, step: Step)
    requires s.build.cancelled && s.disk.cancelled
    ensures var s' := Next(s, step);
      s'.build.cancelled && s'.disk.cancelled && |s'.starts| + MayStart(s'.runner) <= |s.starts| + MayStart(s.runner)
  {
    hide Reported, ResumedJob;
  }

  /** Once a cancellation has reached the disk, at most one more job is started, however the run goes on and
      however often it is interrupted and resumed. */
  lemma {:induction false} CancelledStartsNoMore(s: State, steps: seq<Step>)
    requires s.build.cancelled && s.disk.cancelled
    ensures var s' := After(s, steps);
      s'.build.cancelled && s'.disk.cancelled && |s'.starts| + MayStart(s'.runner) <= |s.starts| + MayStart(s.runner) <= |s.starts| + 1
  {
    hide Next;
    if steps != [] {
      CancelledStartsNoMore(s, steps[..|steps| - 1]);
      StepAfterCancel(After(s, steps[..|steps| - 1]), steps[|steps| - 1]);
    }
  }

  // ---- one job per phase ----

  /** `later` has finished what `b` has, and knows the jobs it knows. */
  ghost predicate Extends(b: Build, later: Build) {
    && |later.phases| == |b.phases|
    && forall k :: 0 <= k < |b.phases| ==>
      && (b.phases[k].status.Done? ==> later.phases[k].status.Done?)
      && (b.phases[k].job.Some? ==> later.phases[k].job == b.phases[k].job)
  }

  /** A job that is about to be started is the first of its phase; once its id is saved, the disk has all
      that the runner knows of the phases. */
  ghost predicate FirstJob(s: State) {
    match s.runner
    case Record(i) => NotStarted(s.starts, i) && JobAt(s, i).Some?
    case Begin(i) => NotStarted(s.starts, i) && JobAt(s, i).Some? && s.disk.phases == s.build.phases
    case _ => true
  }

  ghost predicate Inv(s: State) {
    && InOrder(s) && StartsRecorded(s.disk, s.starts) && FirstJob(s)
    && (!s.runner.Crashed? ==> Extends(s.disk, s.build))
  }

  lemma ExtendedRecord(disk: Build, build: Build, starts: seq<(nat, nat)>)
    requires StartsRecorded(disk, starts) && Extends(disk, build)
    ensures StartsRecorded(build, starts)
  {
    forall a | 0 <= a < |starts|
      ensures starts[a].0 < |build.phases| && build.phases[starts[a].0].job == Some(starts[a].1) && DoneBefore(build, starts[a].0)
    {
      assert DoneBefore(disk, starts[a].0);
    }
  }

  lemma NewStart(disk: Build, starts: seq<(nat, nat)>, i: nat, job: nat)
    requires StartsRecorded(disk, starts) && Underway(disk, i) && NotStarted(starts, i) && disk.phases[i].job == Some(job)
    ensures StartsRecorded(disk, starts + [(i, job)])
  {
    forall a | 0 <= a < |starts| ensures starts[a].0 < i {
      assert DoneBefore(disk, starts[a].0);
    }
  }

  lemma UnrecordedIsNotStarted(disk: Build, build: Build, starts: seq<(nat, nat)>, i: nat)
    requires StartsRecorded(disk, starts) && Extends(disk, build) && i < |build.phases| && build.phases[i].job.None?
    ensures NotStarted(starts, i)
  {
  }

  /** Changing an unfinished phase, except for a job it already has, keeps ahead of the disk. */
  lemma ExtendsWith(disk: Build, build: Build, i: nat, p: Phase)
    requires Extends(disk, build) && Underway(build, i) && (build.phases[i].job.Some? ==> p.job == build.phases[i].job)
    ensures Extends(disk, build.With(i, p))
  {
  }

  /** A checkpoint may or may not be made; either way the disk still has every started job. */
  lemma CheckpointKeeps(s: State, saved: bool)
    requires StartsRecorded(s.disk, s.starts) && Extends(s.disk, s.build)
    ensures var s' := Checkpointed(s, saved);
      StartsRecorded(s'.disk, s'.starts) && Extends(s'.disk, s'.build)
  {
    ExtendedRecord(s.disk, s.build, s.starts);
  }

  /** What the runner writes to the build, before the checkpoint. */
  lemma AdvanceExtends(s: State)
    requires InOrder(s) && !s.runner.Crashed? && Extends(s.disk, s.build)
    ensures Extends(s.disk, Advanced(s, false).build)
  {
    hide Reported, ResumedJob, Sequential;
    if s.runner.Enter? || s.runner.Launch? || s.runner.Act? {
      var i := s.runner.i;
      assert Underway(s.build, i);
      var p := Advanced(s, false).build.phases[i];
      ExtendsWith(s.disk, s.build, i, p);
    }
  }

  lemma AdvanceSaves(s: State, saved: bool)
    ensures var s' := Advanced(s, saved); var t := Advanced(s, false);
      && s'.build == t.build && s'.starts == t.starts && s'.runner == t.runner && s'.jobs == t.jobs
      && t.disk == s.disk && (s'.disk == s.disk || (saved && s'.disk == t.build))
  {
    hide Reported, ResumedJob;
  }

  lemma BeginKeeps(s: State, saved: bool)
    requires Inv(s) && s.runner.Begin?
    ensures var s' := Advanced(s, saved); StartsRecorded(s'.disk, s'.starts) && Extends(s'.disk, s'.build)
  {
    var i := s.runner.i;
    assert Underway(s.disk, i);
    NewStart(s.disk, s.starts, i, JobAt(s, i).value);
  }

  lemma AdvanceKeepsRecord(s: State, saved: bool)
    requires Inv(s) && !s.runner.Crashed?
    ensures var s' := Advanced(s, saved); StartsRecorded(s'.disk, s'.starts) && Extends(s'.disk, s'.build)
  {
    if s.runner.Begin? {
      BeginKeeps(s, saved);
    } else {
      var t := Advanced(s, false);
      AdvanceExtends(s);
      AdvanceSaves(s, saved);
      StartsOnlyAtBegin(s);
      hide StartsRecorded, Extends, Advanced, InOrder, FirstJob;
      CheckpointKeeps(t, saved);
      CheckpointKeeps(t, false);
    }
  }

  lemma StartsOnlyAtBegin(s: State)
    requires !s.runner.Begin?
    ensures Advanced(s, false).starts == s.starts
  {
    hide Reported, ResumedJob;
  }

  lemma AdvanceKeepsFirstJob(s: State, saved: bool)
    requires Inv(s) && !s.runner.Crashed? && (s.runner.Record? ==> saved)
    ensures FirstJob(Advanced(s, saved))
  {
    hide Reported, ResumedJob, StartsRecorded, NotStarted, Extends;
    if s.runner.Launch? && s.build.phases[s.runner.i].job.None? {
      UnrecordedIsNotStarted(s.disk, s.build, s.starts, s.runner.i);
    }
  }

  lemma CancelKeeps(s: State, saved: bool)
    requires Inv(s)
    ensures Inv(Next(s, Cancel(saved)))
  {
    StepKeepsOrder(s, Cancel(saved));
    hide InOrder, StartsRecorded, Extends;
    var s' := Next(s, Cancel(saved));
    if s.runner.Crashed? {
      SamePhasesRecord(s.disk, s'.disk, s.starts);
    } else {
      SamePhasesExtend(s.disk, s.build, s.build.Stopping());
      CheckpointKeeps(s.(build := s.build.Stopping()), saved);
    }
  }

  lemma SamePhasesRecord(was: Build, now: Build, starts: seq<(nat, nat)>)
    requires StartsRecorded(was, starts) && now.phases == was.phases
    ensures StartsRecorded(now, starts)
  {
    forall a | 0 <= a < |starts| ensures DoneBefore(now, starts[a].0) {
      assert DoneBefore(was, starts[a].0);
    }
  }

  lemma SamePhasesExtend(disk: Build, was: Build, now: Build)
    requires Extends(disk, was) && now.phases == was.phases
    ensures Extends(disk, now)
  {
  }

  lemma ExtendsItself(b: Build)
    ensures Extends(b, b)
  {
  }

  lemma StepKeepsInv(s: State, step: Step)
    requires Inv(s) && (s.runner.Record? ==> step != Advance(false))
    ensures Inv(Next(s, step))
  {
    StepKeepsOrder(s, step);
    match step {
      case Advance(saved) =>
        if !s.runner.Crashed? {
          AdvanceKeepsRecord(s, saved);
          AdvanceKeepsFirstJob(s, saved);
          hide InOrder, StartsRecorded, Extends, FirstJob;
        }
      case Cancel(saved) => CancelKeeps(s, saved);
      case Restart =>
        hide InOrder, StartsRecorded;
        ExtendsItself(s.disk);
      case _ => hide InOrder, StartsRecorded, Extends;
    }
  }

  /** Every new job's id reaches the disk before the job is started. */
  predicate IdsSaved(n: nat, steps: seq<Step>) {
    forall k :: 0 <= k < |steps| && After(Started(n), steps[..k]).runner.Record? ==> steps[k] != Advance(false)
  }

  lemma {:induction false} RunKeepsInv(n: nat, steps: seq<Step>)
    requires IdsSaved(n, steps)
    ensures Inv(After(Started(n), steps))
  {
    hide Next, Inv;
    if steps == [] {
      StartsInOrder(n);
    } else {
      var init := steps[..|steps| - 1];
      assert IdsSaved(n, init) by {
        forall k | 0 <= k < |init| && After(Started(n), init[..k]).runner.Record? ensures init[k] != Advance(false) {
          assert init[..k] == steps[..k];
        }
      }
      RunKeepsInv(n, init);
      StepKeepsInv(After(Started(n), init), steps[|steps| - 1]);
    }
  }

  /** Whatever crashes, restarts and cancellations happen and whichever other checkpoints are lost, as long as
      those of new jobs' ids are not, no phase ever has a second job started, phases are started in order,
      and a phase's job is only started when every phase before it is recorded as done. */
  lemma OneJobPerPhase(n: nat, steps: seq<Step>)
    requires IdsSaved(n, steps)
    ensures var s := After(Started(n), steps);
      && (forall a, b :: 0 <= a < b < |s.starts| ==> s.starts[a].0 < s.starts[b].0)
      && (forall a :: 0 <= a < |s.starts| ==> DoneBefore(s.disk, s.starts[a].0))
  {
    RunKeepsInv(n, steps);
  }
}
