/** What a crash costs a phased build: exactly when a job is gone for good, and why the id of a new job has
    to be saved before the job is started. */
module PhasedBuildCrashes {
  import opened PhasedBuilds

  // ---- what every run keeps, whichever checkpoints are lost ----

  /** Jobs are only recorded for phases whose predecessors are done. */
  ghost predicate Recorded(b: Build, jobs: seq<Job>) {
    forall k :: 0 <= k < |b.phases| && b.phases[k].job.Some? ==> b.phases[k].job.value < |jobs| && DoneBefore(b, k)
  }

  /** No phase was given up because its job was nowhere to be found. */
  predicate Healthy(b: Build) {
    forall k :: 0 <= k < |b.phases| ==> b.phases[k].status != Failed(JobDisappeared)
  }

  predicate Going(s: State) {
    !s.runner.Crashed? && !s.runner.Gone?
  }

  predicate LiveDone(b: Build, jobs: seq<Job>, k: nat)
    requires k < |b.phases|
  {
    b.phases[k].job.Some? && b.phases[k].job.value < |jobs| && jobs[b.phases[k].job.value].live == Some(JobDone)
  }

  /** A phase that is done in memory but not on disk was done by a job of this process. */
  ghost predicate DoneHere(s: State) {
    forall k :: 0 <= k < |s.build.phases| && k < |s.disk.phases| && s.build.phases[k].status.Done? && !s.disk.phases[k].status.Done? ==>
      LiveDone(s.build, s.jobs, k)
  }

  /** The job the runner is concerned with is known to this process, if it ever will be. */
  ghost predicate JobAtHand(s: State) {
    match s.runner
    case Record(i) => JobAt(s, i).Some? && JobAt(s, i).value < |s.jobs| && s.jobs[JobAt(s, i).value].live.Some?
    case Begin(i) => JobAt(s, i).Some? && JobAt(s, i).value < |s.jobs| && s.jobs[JobAt(s, i).value].live.Some?
    case Wait(i) =>
      JobAt(s, i).Some? && JobAt(s, i).value < |s.jobs|
      && (s.jobs[JobAt(s, i).value].live.Some? || s.jobs[JobAt(s, i).value].saved.None?)
    case Act(i, end) => i < |s.build.phases| && (end == Some(JobDone) ==> LiveDone(s.build, s.jobs, i))
    case Crashed => forall j :: 0 <= j < |s.jobs| ==> s.jobs[j].live.None?
    case _ => true
  }

  ghost predicate Tracked(s: State) {
    && InOrder(s) && JobAtHand(s) && Recorded(s.disk, s.jobs) && (Resumable(s.disk) ==> Healthy(s.disk))
    && (!s.runner.Crashed? ==> Extends(s.disk, s.build) && Recorded(s.build, s.jobs) && DoneHere(s))
    && (Going(s) ==> Healthy(s.build)) && (s.runner.Gone? ==> !Resumable(s.build))
  }

  lemma StartedIsTracked(n: nat)
    ensures Tracked(Started(n))
  {
  }

  lemma CheckpointTracks(s: State)
    requires Tracked(s) && !s.runner.Crashed?
    ensures Tracked(s.(disk := s.build))
  {
    hide DoneBefore;
    ExtendsItself(s.build);
  }

  lemma RecordedWith(b: Build, jobs: seq<Job>, i: nat, p: Phase)
    requires Recorded(b, jobs) && Underway(b, i) && (p.job == b.phases[i].job || (p.job.Some? && p.job.value < |jobs|))
    ensures Recorded(b.With(i, p), jobs)
  {
    forall k | 0 <= k < |b.phases| && b.With(i, p).phases[k].job.Some? ensures DoneBefore(b.With(i, p), k) {
      assert k != i ==> DoneBefore(b, k);
    }
  }

  lemma MoreJobs(b: Build, jobs: seq<Job>, jobs': seq<Job>)
    requires Recorded(b, jobs) && |jobs| <= |jobs'|
    ensures Recorded(b, jobs')
  {
  }

  lemma EnterTracks(s: State)
    requires Tracked(s) && s.runner.Enter?
    ensures Tracked(Advanced(s, false))
  {
    AdvanceKeepsOrder(s, false);
    AdvanceExtends(s);
    RecordedWith(s.build, s.jobs, s.runner.i, s.build.phases[s.runner.i].(status := Running));
    hide InOrder, Extends, Recorded, DoneBefore;
    var b := s.build.With(s.runner.i, s.build.phases[s.runner.i].(status := Running));
    assert Recorded(b.(status := Active), s.jobs) by { SamePhasesRecorded(b, b.(status := Active), s.jobs); }
  }

  lemma SamePhasesRecorded(was: Build, now: Build, jobs: seq<Job>)
    requires Recorded(was, jobs) && now.phases == was.phases
    ensures Recorded(now, jobs)
  {
    forall k | 0 <= k < |was.phases| && was.phases[k].job.Some? ensures DoneBefore(now, k) {
      assert DoneBefore(was, k);
    }
  }

  lemma LaunchTracks(s: State)
    requires Tracked(s) && s.runner.Launch?
    ensures Tracked(Advanced(s, false))
  {
    var i, s' := s.runner.i, Advanced(s, false);
    AdvanceKeepsOrder(s, false);
    AdvanceExtends(s);
    MoreJobs(s.disk, s.jobs, s'.jobs);
    MoreJobs(s.build, s.jobs, s'.jobs);
    if s.build.phases[i].job.None? {
      RecordedWith(s.build, s'.jobs, i, s.build.phases[i].(job := Some(|s.jobs|)));
    }
    hide InOrder, Extends, Recorded, DoneBefore;
    forall k | 0 <= k < |s'.build.phases| && k < |s'.disk.phases| && s'.build.phases[k].status.Done? && !s'.disk.phases[k].status.Done?
      ensures LiveDone(s'.build, s'.jobs, k)
    {
      assert k != i && LiveDone(s.build, s.jobs, k);
    }
  }

  lemma ActTracks(s: State)
    requires Tracked(s) && s.runner.Act?
    ensures Tracked(Advanced(s, false))
  {
    var i, s' := s.runner.i, Advanced(s, false);
    AdvanceKeepsOrder(s, false);
    AdvanceExtends(s);
    var p := s'.build.phases[i];
    RecordedWith(s.build, s.jobs, i, p);
    SamePhasesRecorded(s.build.With(i, p), s'.build, s.jobs);
    hide InOrder, Extends, Recorded, DoneBefore;
    forall k | 0 <= k < |s'.build.phases| && k < |s'.disk.phases| && s'.build.phases[k].status.Done? && !s'.disk.phases[k].status.Done?
      ensures LiveDone(s'.build, s'.jobs, k)
    {
      assert k != i ==> LiveDone(s.build, s.jobs, k);
    }
  }

  lemma OtherAdvanceTracks(s: State)
    requires Tracked(s) && !s.runner.Enter? && !s.runner.Launch? && !s.runner.Act?
    ensures Tracked(Advanced(s, false))
  {
    AdvanceKeepsOrder(s, false);
    hide InOrder, Extends, DoneBefore;
  }

  lemma AdvanceTracks(s: State, saved: bool)
    requires Tracked(s)
    ensures Tracked(Advanced(s, saved))
  {
    hide Tracked, Advanced;
    if s.runner.Enter? {
      EnterTracks(s);
    } else if s.runner.Launch? {
      LaunchTracks(s);
    } else if s.runner.Act? {
      ActTracks(s);
    } else {
      OtherAdvanceTracks(s);
    }
    SavedAdvance(s, saved);
    var t := Advanced(s, false);
    if !t.runner.Crashed? {
      CheckpointTracks(t);
    }
  }

  lemma SavedAdvance(s: State, saved: bool)
    ensures var t, s' := Advanced(s, false), Advanced(s, saved);
      s' == t || (!t.runner.Crashed? && s' == t.(disk := t.build))
  {
    hide Reported, ResumedJob;
  }

  lemma JobStepTracks(s: State, step: Step)
    requires Tracked(s) && (step.JobSaves? || step.JobEnds?)
    ensures Tracked(Next(s, step))
  {
    var s' := Next(s, step);
    MoreJobs(s.disk, s.jobs, s'.jobs);
    if !s.runner.Crashed? {
      MoreJobs(s.build, s.jobs, s'.jobs);
    }
    hide InOrder, Extends, Recorded, DoneBefore;
    assert InOrder(s') by { SameOrder(s, s'); }
    forall k | 0 <= k < |s.build.phases| && LiveDone(s.build, s.jobs, k) ensures LiveDone(s'.build, s'.jobs, k) {
    }
  }

  lemma SameOrder(s: State, s': State)
    requires InOrder(s) && s'.runner == s.runner && s'.build == s.build && s'.disk == s.disk
    ensures InOrder(s')
  {
  }

  lemma StepTracks(s: State, step: Step)
    requires Tracked(s)
    ensures Tracked(Next(s, step))
  {
    StepKeepsOrder(s, step);
    match step {
      case Advance(saved) => AdvanceTracks(s, saved);
      case JobSaves(_) => JobStepTracks(s, step);
      case JobEnds(_, _) => JobStepTracks(s, step);
      case Cancel(saved) => CancelTracks(s, saved);
      case Crash =>
        MoreJobs(s.disk, s.jobs, Next(s, Crash).jobs);
        hide InOrder, Extends, Recorded, DoneBefore;
      case Restart =>
        ExtendsItself(s.disk);
        hide InOrder, Extends, Recorded, DoneBefore;
    }
  }

  lemma CancelTracks(s: State, saved: bool)
    requires Tracked(s)
    ensures Tracked(Next(s, Cancel(saved)))
  {
    StepKeepsOrder(s, Cancel(saved));
    hide InOrder, Extends, Recorded, DoneBefore;
    SamePhasesRecorded(s.disk, s.disk.Stopping(), s.jobs);
    if !s.runner.Crashed? {
      SamePhasesRecorded(s.build, s.build.Stopping(), s.jobs);
      SamePhasesExtend(s.disk, s.build, s.build.Stopping());
      ExtendsItself(s.build.Stopping());
    }
  }

  lemma {:induction false} RunTracks(n: nat, steps: seq<Step>)
    ensures Tracked(After(Started(n), steps))
  {
    hide Next, Tracked;
    if steps == [] {
      StartedIsTracked(n);
    } else {
      RunTracks(n, steps[..|steps| - 1]);
      StepTracks(After(Started(n), steps[..|steps| - 1]), steps[|steps| - 1]);
    }
  }

  // ---- when a job is gone for good ----

  /** The first phase that is unfinished on disk has a job there that has never saved itself. */
  predicate Unsaved(disk: Build, jobs: seq<Job>, i: nat) {
    && Underway(disk, i) && disk.phases[i].job.Some?
    && disk.phases[i].job.value < |jobs| && jobs[disk.phases[i].job.value].saved.None?
  }

  /** A crash now would lose a job that the build needs. */
  ghost predicate LosesJob(s: State) {
    Resumable(s.disk) && exists i: nat :: Unsaved(s.disk, s.jobs, i)
  }

  predicate Uninterrupted(steps: seq<Step>) {
    forall k :: 0 <= k < |steps| ==> !steps[k].Crash? && !steps[k].Cancel?
  }

  /** Phase `i` is doomed: its job is recorded and is nowhere to be found. */
  ghost predicate Doomed(s: State, i: nat, j: nat) {
    && j < |s.jobs| && s.jobs[j] == Job(None, None)
    && (s.runner.Crashed? ==> Resumable(s.disk) && Underway(s.disk, i) && s.disk.phases[i].job == Some(j))
    && (!s.runner.Crashed? ==>
          && Underway(s.build, i) && s.build.phases[i].job == Some(j) && !s.build.cancelled
          && match s.runner
             case Look(k) => k <= i
             case Enter(k) => k == i
             case Launch(k) => k == i
             case Wait(k) => k == i
             case Act(k, end) => k == i && end.None?
             case Gone => s.build.status.Broken? && s.build.phases[i].status == Failed(JobDisappeared)
             case _ => false)
  }

  lemma StepKeepsDoomed(s: State, step: Step, i: nat, j: nat)
    requires Doomed(s, i, j) && !step.Crash? && !step.Cancel?
    ensures Doomed(Next(s, step), i, j)
  {
  }

  lemma {:induction false} RunKeepsDoomed(s: State, steps: seq<Step>, i: nat, j: nat)
    requires Doomed(s, i, j) && Uninterrupted(steps)
    ensures Doomed(After(s, steps), i, j)
  {
    hide Next, Doomed;
    if steps != [] {
      RunKeepsDoomed(s, steps[..|steps| - 1], i, j);
      StepKeepsDoomed(After(s, steps[..|steps| - 1]), steps[|steps| - 1], i, j);
    }
  }

  /** How far a doomed build is from its end. */
  function Distance(s: State, i: nat): int {
    match s.runner
    case Crashed => i + 6
    case Look(k) => i - k + 5
    case Enter(_) => 4
    case Launch(_) => 3
    case Wait(_) => 2
    case Act(_, _) => 1
    case _ => 0
  }

  /** Left alone, it comes to it. */
  lemma {:induction false} DoomedEnds(s: State, i: nat, j: nat) returns (steps: seq<Step>)
    requires Doomed(s, i, j)
    ensures Uninterrupted(steps) && After(s, steps).runner.Gone? && |steps| == Distance(s, i)
    ensures steps != [] ==> After(s, steps).disk == After(s, steps).build
    decreases Distance(s, i)
  {
    hide After;
    if s.runner.Gone? {
      steps := [];
      assert After(s, []) == s by { NoSteps(s); }
    } else {
      var step := if s.runner.Crashed? then Restart else Advance(true);
      StepKeepsDoomed(s, step, i, j);
      var s' := Next(s, step);
      assert Distance(s', i) == Distance(s, i) - 1;
      assert s'.runner.Gone? ==> s'.disk == s'.build;
      var rest := DoomedEnds(s', i, j);
      steps := [step] + rest;
      AfterConcat(s, [step], rest);
      OneStep(s, step);
      NoSteps(s');
    }
  }

  // ---- when it is not ----

  /** The jobs of unfinished phases can be found. */
  ghost predicate Traceable(b: Build, jobs: seq<Job>) {
    forall k :: 0 <= k < |b.phases| && !b.phases[k].status.Done? && b.phases[k].job.Some? ==> Known(jobs, b.phases[k].job.value)
  }

  ghost predicate NoJobLost(s: State) {
    && Healthy(s.disk) && (!s.runner.Crashed? ==> Healthy(s.build))
    && (Resumable(s.disk) ==> Traceable(s.disk, s.jobs))
    && (Going(s) ==> Traceable(s.build, s.jobs)) && (s.runner.Gone? ==> !Resumable(s.build))
    && (s.runner.Act? ==> s.runner.end.Some?)
  }

  lemma StartedLosesNoJob(n: nat)
    ensures NoJobLost(Started(n))
  {
  }

  lemma StillTraceable(b: Build, jobs: seq<Job>, jobs': seq<Job>)
    requires forall j: nat :: Known(jobs, j) ==> Known(jobs', j)
    ensures Traceable(b, jobs) ==> Traceable(b, jobs')
  {
  }

  lemma StillKnown(s: State, step: Step, j: nat)
    requires Known(s.jobs, j) && !step.Crash?
    ensures Known(Next(s, step).jobs, j)
  {
    hide Reported;
  }

  lemma LaunchLosesNoJob(s: State)
    requires NoJobLost(s) && s.runner.Launch?
    ensures NoJobLost(Advanced(s, false))
  {
    var s' := Advanced(s, false);
    forall j: nat | Known(s.jobs, j) ensures Known(s'.jobs, j) {
      StillKnown(s, Advance(false), j);
    }
    StillTraceable(s.disk, s.jobs, s'.jobs);
    StillTraceable(s.build, s.jobs, s'.jobs);
  }

  lemma WaitLosesNoJob(s: State)
    requires NoJobLost(s) && Tracked(s) && s.runner.Wait?
    ensures NoJobLost(Advanced(s, false))
  {
    hide Extends, Recorded, DoneHere, DoneBefore, Healthy;
    assert Underway(s.build, s.runner.i) && Known(s.jobs, JobAt(s, s.runner.i).value);
  }

  lemma OtherAdvanceLosesNoJob(s: State)
    requires NoJobLost(s) && InOrder(s) && !s.runner.Launch? && !s.runner.Wait?
    ensures NoJobLost(Advanced(s, false))
  {
    hide Known, Reported, ResumedJob, Sequential, DoneBefore;
  }

  lemma AdvanceLosesNoJob(s: State, saved: bool)
    requires NoJobLost(s) && Tracked(s)
    ensures NoJobLost(Advanced(s, saved))
  {
    assert InOrder(s);
    hide NoJobLost, Advanced, Tracked;
    if s.runner.Launch? {
      LaunchLosesNoJob(s);
    } else if s.runner.Wait? {
      WaitLosesNoJob(s);
    } else {
      OtherAdvanceLosesNoJob(s);
    }
    SavedAdvance(s, saved);
    var t := Advanced(s, false);
    if !t.runner.Crashed? {
      CheckpointLosesNoJob(t);
    }
  }

  lemma CheckpointLosesNoJob(s: State)
    requires NoJobLost(s) && !s.runner.Crashed?
    ensures NoJobLost(s.(disk := s.build))
  {
    hide Traceable, Healthy;
  }

  /** A crash that loses no job leaves every recorded job of the build where it can be found. */
  lemma CrashLosesNoJob(s: State)
    requires NoJobLost(s) && Tracked(s) && !LosesJob(s)
    ensures NoJobLost(Next(s, Crash))
  {
    var s' := Next(s, Crash);
    hide Healthy, InOrder, Extends, DoneHere, DoneBefore;
    forall k | Resumable(s.disk) && 0 <= k < |s.disk.phases| && !s.disk.phases[k].status.Done? && s.disk.phases[k].job.Some?
      ensures Known(s'.jobs, s.disk.phases[k].job.value)
    {
      assert !Unsaved(s.disk, s.jobs, k);
    }
  }

  lemma StepLosesNoJob(s: State, step: Step)
    requires NoJobLost(s) && Tracked(s) && (step.Crash? ==> !LosesJob(s))
    ensures NoJobLost(Next(s, step))
  {
    var s' := Next(s, step);
    match step {
      case Advance(saved) => AdvanceLosesNoJob(s, saved);
      case Crash => CrashLosesNoJob(s);
      case Cancel(_) => hide Tracked, Known;
      case Restart => hide Tracked, Traceable, Healthy;
      case _ =>
        forall j: nat | Known(s.jobs, j) ensures Known(s'.jobs, j) {
          StillKnown(s, step, j);
        }
        hide Tracked, Known;
        StillTraceable(s.disk, s.jobs, s'.jobs);
        StillTraceable(s.build, s.jobs, s'.jobs);
        hide Traceable;
    }
  }

  lemma {:induction false} RunLosesNoJob(s: State, steps: seq<Step>)
    requires NoJobLost(s) && Tracked(s) && forall k :: 0 <= k < |steps| && steps[k].Crash? ==> !LosesJob(After(s, steps[..k]))
    ensures NoJobLost(After(s, steps)) && Tracked(After(s, steps))
  {
    hide Next, NoJobLost, LosesJob, Tracked;
    if steps != [] {
      var init := steps[..|steps| - 1];
      forall k | 0 <= k < |init| && init[k].Crash? ensures !LosesJob(After(s, init[..k])) {
        assert init[..k] == steps[..k] && steps[k].Crash?;
      }
      RunLosesNoJob(s, init);
      StepLosesNoJob(After(s, init), steps[|steps| - 1]);
      StepTracks(After(s, init), steps[|steps| - 1]);
    }
  }

  // ---- the exact condition ----

  /** Some phase has been given up because its job was nowhere to be found. */
  predicate Disappeared(s: State) {
    !s.runner.Crashed? && !Healthy(s.build)
  }

  /** A crash after which the build is resumed breaks it if and only if it lost the job recorded for the
      first unfinished phase: then some continuation without further crashes and cancellations gives that
      phase up, and otherwise none does. */
  lemma CrashBreaksBuildIff(n: nat, steps: seq<Step>)
    requires Resumable(After(Started(n), steps + [Crash]).disk)
    ensures LosesJob(After(Started(n), steps)) <==>
      exists more :: Uninterrupted(more) && Disappeared(After(Started(n), steps + [Crash] + more))
  {
    var before, s := After(Started(n), steps), After(Started(n), steps + [Crash]);
    RunTracks(n, steps);
    RunTracks(n, steps + [Crash]);
    AfterConcat(Started(n), steps, [Crash]);
    OneStep(before, Crash);
    if LosesJob(before) {
      var i: nat :| Unsaved(before.disk, before.jobs, i);
      var j := before.disk.phases[i].job.value;
      LostIsDoomed(before, i);
      var more := DoomedEnds(s, i, j);
      RunKeepsDoomed(s, more, i, j);
      hide After;
      AfterConcat(Started(n), steps + [Crash], more);
      assert Disappeared(After(Started(n), steps + [Crash] + more));
    }
    forall more | Uninterrupted(more) && !LosesJob(before) ensures !Disappeared(After(Started(n), steps + [Crash] + more)) {
      AfterConcat(Started(n), steps + [Crash], more);
      SurvivesCrash(before, more);
    }
  }

  lemma LostIsDoomed(s: State, i: nat)
    requires Resumable(s.disk) && Unsaved(s.disk, s.jobs, i)
    ensures Doomed(Next(s, Crash), i, s.disk.phases[i].job.value)
  {
  }

  lemma SurvivesCrash(s: State, more: seq<Step>)
    requires Tracked(s) && Resumable(s.disk) && !LosesJob(s) && Uninterrupted(more)
    ensures !Disappeared(After(Next(s, Crash), more))
  {
    var s' := Next(s, Crash);
    StepTracks(s, Crash);
    assert NoJobLost(s') by {
      hide InOrder, Extends, DoneHere, DoneBefore;
      forall k | 0 <= k < |s.disk.phases| && !s.disk.phases[k].status.Done? && s.disk.phases[k].job.Some?
        ensures Known(s'.jobs, s.disk.phases[k].job.value)
      {
        assert !Unsaved(s.disk, s.jobs, k);
      }
    }
    hide Tracked, NoJobLost, LosesJob, Next;
    RunLosesNoJob(s', more);
    EndsHealthy(After(s', more));
  }

  lemma EndsHealthy(s: State)
    requires NoJobLost(s)
    ensures !Disappeared(s) && Healthy(s.disk)
  {
  }

  /** However the build goes on after such a crash, as long as it is not interrupted again: the phase is never
      done, and when the runner stops the build is broken and the phase given up; it takes the runner `i + 5`
      steps after the restart to get there. */
  lemma LostJobDisappears(n: nat, steps: seq<Step>, i: nat, more: seq<Step>)
    requires var s := After(Started(n), steps); Resumable(s.disk) && Unsaved(s.disk, s.jobs, i)
    requires Uninterrupted(more)
    ensures var s := After(Started(n), steps + [Crash] + more);
      && (!s.runner.Crashed? ==> i < |s.build.phases| && !s.build.phases[i].status.Done?)
      && (s.runner.Gone? ==> s.build.status.Broken? && s.build.phases[i].status == Failed(JobDisappeared))
    ensures exists rest ::
      && Uninterrupted(rest) && |rest| == i + 6
      && After(Started(n), steps + [Crash] + rest).runner.Gone? && After(Started(n), steps + [Crash] + rest).disk.status.Broken?
  {
    var before, s := After(Started(n), steps), After(Started(n), steps + [Crash]);
    AfterConcat(Started(n), steps, [Crash]);
    OneStep(before, Crash);
    LostIsDoomed(before, i);
    var j := before.disk.phases[i].job.value;
    RunKeepsDoomed(s, more, i, j);
    AfterConcat(Started(n), steps + [Crash], more);
    var rest := DoomedEnds(s, i, j);
    RunKeepsDoomed(s, rest, i, j);
    AfterConcat(Started(n), steps + [Crash], rest);
  }

  /** If no crash ever loses a job, no phase is ever given up because its job disappeared. */
  lemma JobsDisappearOnlyLost(n: nat, steps: seq<Step>)
    requires forall k :: 0 <= k < |steps| && steps[k].Crash? ==> !LosesJob(After(Started(n), steps[..k]))
    ensures var s := After(Started(n), steps); !Disappeared(s) && Healthy(s.disk)
  {
    StartedLosesNoJob(n);
    StartedIsTracked(n);
    RunLosesNoJob(Started(n), steps);
    EndsHealthy(After(Started(n), steps));
  }

  // ---- losing the id of a new job ----

  /** The runner looks at phase `k`; the ones from there up to `i` can be done, and `i` has no job yet. */
  ghost predicate Passing(s: State, k: nat, i: nat) {
    && s.runner == Look(k) && k <= i < |s.build.phases| && !s.build.cancelled
    && !s.build.phases[i].status.Done? && s.build.phases[i].job.None?
    && forall m :: k <= m < i && !s.build.phases[m].status.Done? && s.build.phases[m].job.Some? ==>
         s.build.phases[m].job.value < |s.jobs| && ResumedJob(s.jobs[s.build.phases[m].job.value]).live == Some(JobDone)
  }

  function Advances(s: State, n: nat): State {
    if n == 0 then s else Advanced(Advances(s, n - 1), false)
  }

  /** Nothing that was started or created is forgotten. */
  ghost predicate Grows(s: State, s': State) {
    s.starts <= s'.starts && |s.jobs| <= |s'.jobs|
  }

  lemma PassDone(s: State, k: nat, i: nat)
    requires Passing(s, k, i) && s.build.phases[k].status.Done?
    ensures Passing(Advanced(s, false), k + 1, i) && Grows(s, Advanced(s, false))
  {
  }

  /** An unfinished phase that has no job is entered and given one, which is started. */
  lemma NewJobStarts(s: State, k: nat)
    requires s.runner == Look(k) && k < |s.build.phases| && !s.build.cancelled
    requires !s.build.phases[k].status.Done? && s.build.phases[k].job.None?
    ensures var p := Phase(Some(|s.jobs|), Running); var b := s.build.With(k, p).(status := Active);
      Advances(s, 5) == State(Wait(k), b, s.disk, s.jobs + [Job(Some(JobRunning), None)], s.starts + [(k, |s.jobs|)])
  {
    var s1 := Advanced(s, false);
    var s2 := Advanced(s1, false);
    var s3 := Advanced(s2, false);
    var s4 := Advanced(s3, false);
    var s5 := Advanced(s4, false);
    assert s1 == s.(runner := Enter(k));
    assert s3.build.phases == s.build.phases[k := Phase(Some(|s.jobs|), Running)];
    FiveAdvances(s);
  }

  lemma FiveAdvances(s: State)
    ensures Advances(s, 5) == Advanced(Advanced(Advanced(Advanced(Advanced(s, false), false), false), false), false)
  {
    hide Advanced;
    assert Advances(s, 1) == Advanced(Advances(s, 0), false);
    assert Advances(s, 3) == Advanced(Advances(s, 2), false) && Advances(s, 2) == Advanced(Advances(s, 1), false);
  }

  lemma {:induction false} AdvancesAreSteps(s: State, n: nat) returns (steps: seq<Step>)
    ensures After(s, steps) == Advances(s, n)
  {
    hide Advanced;
    if n == 0 {
      steps := [];
    } else {
      steps := AdvancesAreSteps(s, n - 1);
      steps := Then(s, steps, Advance(false));
    }
  }

  lemma PassNew(s: State, k: nat, i: nat) returns (steps: seq<Step>)
    requires Passing(s, k, i) && k < i && !s.build.phases[k].status.Done? && s.build.phases[k].job.None?
    ensures Passing(After(s, steps), k + 1, i) && Grows(s, After(s, steps))
  {
    NewJobStarts(s, k);
    steps := AdvancesAreSteps(s, 5);
    hide After, Advances;
    var s5 := After(s, steps);
    steps := Then(s, steps, JobEnds(|s.jobs|, true));
    var s6 := After(s, steps);
    assert s6.jobs == s.jobs + [Job(Some(JobDone), None)];
    steps := Then(s, steps, Advance(false));
    steps := Then(s, steps, Advance(false));
    assert After(s, steps).build.phases[k].status.Done?;
  }

  lemma PassOld(s: State, k: nat, i: nat) returns (steps: seq<Step>)
    requires Passing(s, k, i) && k < i && !s.build.phases[k].status.Done? && s.build.phases[k].job.Some?
    ensures Passing(After(s, steps), k + 1, i) && Grows(s, After(s, steps))
  {
    steps := AdvancesAreSteps(s, 5);
    FiveAdvances(s);
    hide After, Advances;
    var j := s.build.phases[k].job.value;
    var s2 := Advanced(Advanced(s, false), false);
    assert s2.build.phases == s.build.phases[k := Phase(Some(j), Running)];
    var s3 := Advanced(s2, false);
    assert s3 == s2.(runner := Wait(k), jobs := s.jobs[j := ResumedJob(s.jobs[j])]);
    var s4 := Advanced(s3, false);
    assert s4 == s3.(runner := Act(k, Some(JobDone)));
  }

  lemma {:induction false} PassUpTo(s: State, k: nat, i: nat) returns (steps: seq<Step>)
    requires Passing(s, k, i)
    ensures Passing(After(s, steps), i, i) && Grows(s, After(s, steps))
    decreases i - k
  {
    hide After, Next, Advanced, Advances;
    if k == i {
      steps := [];
      NoSteps(s);
    } else {
      if s.build.phases[k].status.Done? {
        PassDone(s, k, i);
        steps := Then(s, [], Advance(false));
        NoSteps(s);
        AdvanceStep(s);
      } else if s.build.phases[k].job.None? {
        steps := PassNew(s, k, i);
      } else {
        steps := PassOld(s, k, i);
      }
      var rest := PassUpTo(After(s, steps), k + 1, i);
      AfterConcat(s, steps, rest);
      steps := steps + rest;
    }
  }

  lemma AdvanceStep(s: State)
    ensures Next(s, Advance(false)) == Advanced(s, false)
  {
  }

  /** A crash now would be followed by a restart that does not know the job about to be started. */
  ghost predicate IdUnknown(s: State, i: nat) {
    s.runner == Record(i) && i < |s.disk.phases| && s.disk.phases[i].job.None? && Resumable(s.disk)
  }

  /** The first phase that is unfinished on disk. */
  lemma FirstUnfinished(s: State, i: nat) returns (f: nat)
    requires Tracked(s) && IdUnknown(s, i)
    ensures f <= i && Underway(s.disk, f)
    ensures s.disk.phases[f].job.Some? ==>
      var j := s.disk.phases[f].job.value; j < |s.jobs| && s.jobs[j].live == Some(JobDone)
  {
    assert Underway(s.build, i) && !s.disk.phases[i].status.Done?;
    f := 0;
    while s.disk.phases[f].status.Done?
      invariant f <= i && DoneBefore(s.disk, f)
      decreases i - f
    {
      f := f + 1;
    }
    if s.disk.phases[f].job.Some? {
      assert f < i && s.build.phases[f].status.Done? && LiveDone(s.build, s.jobs, f);
    }
  }

  /** After the job was started without its id on disk, and the job of the phase before it, if any is
      unfinished on disk, was saved: crash and restart. */
  lemma RestartPasses(s: State, i: nat, f: nat)
    requires !s.runner.Crashed? && Resumable(s.disk) && f <= i < |s.disk.phases| && Underway(s.disk, f) && Recorded(s.disk, s.jobs)
    requires s.disk.phases[i].job.None? && !s.disk.phases[i].status.Done?
    requires s.disk.phases[f].job.Some? ==> s.jobs[s.disk.phases[f].job.value].saved == Some(JobDone)
    ensures Passing(Next(Next(s, Crash), Restart), 0, i) && Grows(s, Next(Next(s, Crash), Restart))
  {
    var s' := Next(Next(s, Crash), Restart);
    forall m | 0 <= m < i && !s'.build.phases[m].status.Done? && s'.build.phases[m].job.Some?
      ensures s'.build.phases[m].job.value < |s'.jobs| && ResumedJob(s'.jobs[s'.build.phases[m].job.value]).live == Some(JobDone)
    {
      assert DoneBefore(s.disk, m);
      assert m == f;
    }
  }

  /** The job of phase `f` saves itself, if it has one. */
  lemma SavedFirst(s: State, i: nat, f: nat) returns (steps: seq<Step>)
    requires !s.runner.Crashed? && Underway(s.disk, f) && Recorded(s.disk, s.jobs)
    requires s.disk.phases[f].job.Some? ==> s.jobs[s.disk.phases[f].job.value].live == Some(JobDone)
    ensures var s' := After(s, steps);
      && !s'.runner.Crashed? && s'.disk == s.disk && s'.starts == s.starts && |s'.jobs| == |s.jobs|
      && (s.disk.phases[f].job.Some? ==> s'.jobs[s.disk.phases[f].job.value].saved == Some(JobDone))
  {
    NoSteps(s);
    steps := [];
    if s.disk.phases[f].job.Some? {
      steps := Then(s, [], JobSaves(s.disk.phases[f].job.value));
    }
  }

  /** Two different jobs were started for the phase. */
  ghost predicate StartedTwice(s: State, i: nat) {
    exists a, b :: 0 <= a < b < |s.starts| && s.starts[a].0 == s.starts[b].0 == i && s.starts[a].1 != s.starts[b].1
  }

  /** The checkpoint of a new job's id is the one that matters: every run that loses it while the disk does
      not have the id yet, and would be resumed, goes on to one in which the phase is started twice. */
  lemma LostIdStartsTwice(n: nat, steps: seq<Step>, i: nat)
    requires IdUnknown(After(Started(n), steps), i)
    ensures exists more :: StartedTwice(After(Started(n), steps + [Advance(false)] + more), i)
  {
    var s := After(Started(n), steps);
    RunTracks(n, steps);
    var more := StartsAgain(s, i);
    hide StartedTwice, Tracked, IdUnknown;
    AfterConcat(Started(n), steps, [Advance(false)] + more);
    assert steps + ([Advance(false)] + more) == steps + [Advance(false)] + more;
  }

  /** The restarted runner comes to the phase again, finds no job, and starts one. */
  lemma SecondStart(s: State, i: nat, f: nat) returns (rest: seq<Step>, job: nat)
    requires !s.runner.Crashed? && Resumable(s.disk) && f <= i < |s.disk.phases| && Underway(s.disk, f) && Recorded(s.disk, s.jobs)
    requires s.disk.phases[i].job.None? && !s.disk.phases[i].status.Done?
    requires s.disk.phases[f].job.Some? ==> s.jobs[s.disk.phases[f].job.value].saved == Some(JobDone)
    ensures var end := After(s, rest).starts; s.starts <= end && |end| > |s.starts| && Last(end) == (i, job) && job >= |s.jobs|
  {
    RestartPasses(s, i, f);
    var s1 := Next(Next(s, Crash), Restart);
    var back := [Crash, Restart];
    TwoSteps(s, Crash, Restart);
    hide After, Next, Advances, Advanced;
    var pass := PassUpTo(s1, 0, i);
    var s2 := After(s1, pass);
    NewJobStarts(s2, i);
    job := |s2.jobs|;
    var start := AdvancesAreSteps(s2, 5);
    AfterConcat(s, back, pass);
    AfterConcat(s, back + pass, start);
    rest := back + pass + start;
  }

  function Last(starts: seq<(nat, nat)>): (nat, nat) {
    if starts == [] then (0, 0) else starts[|starts| - 1]
  }

  /** The state in which the job of phase `i` has been started although the disk does not know it. */
  ghost predicate StartedUnknown(s: State, i: nat, f: nat) {
    && !s.runner.Crashed? && Resumable(s.disk) && f <= i < |s.disk.phases| && Underway(s.disk, f) && Recorded(s.disk, s.jobs)
    && s.disk.phases[i].job.None? && !s.disk.phases[i].status.Done?
    && (s.disk.phases[f].job.Some? ==> s.jobs[s.disk.phases[f].job.value].live == Some(JobDone))
  }

  lemma FirstStart(s: State, i: nat) returns (steps: seq<Step>, job: nat, f: nat)
    requires Tracked(s) && IdUnknown(s, i)
    ensures steps == [Advance(false), Advance(false)] && StartedUnknown(After(s, steps), i, f)
    ensures After(s, steps).starts == s.starts + [(i, job)] && job < |After(s, steps).jobs|
  {
    f := FirstUnfinished(s, i);
    assert Underway(s.build, i);
    job := s.build.phases[i].job.value;
    hide InOrder, Recorded;
    steps := [Advance(false), Advance(false)];
    TwoSteps(s, Advance(false), Advance(false));
    assert After(s, steps) == s.(runner := Wait(i), starts := s.starts + [(i, job)]);
  }

  lemma SavedAndStarted(s: State, i: nat, f: nat) returns (rest: seq<Step>, job: nat)
    requires StartedUnknown(s, i, f)
    ensures var end := After(s, rest).starts; s.starts <= end && |end| > |s.starts| && Last(end) == (i, job) && job >= |s.jobs|
  {
    var saving := SavedFirst(s, i, f);
    var s' := After(s, saving);
    MoreJobs(s.disk, s.jobs, s'.jobs);
    hide After, Recorded, Underway, Resumable;
    rest, job := SecondStart(s', i, f);
    AfterConcat(s, saving, rest);
    rest := saving + rest;
  }

  lemma StartsAgain(s: State, i: nat) returns (more: seq<Step>)
    requires Tracked(s) && IdUnknown(s, i)
    ensures StartedTwice(After(s, [Advance(false)] + more), i)
  {
    hide *;
    var begin, j, f := FirstStart(s, i);
    var rest, job := SavedAndStarted(After(s, begin), i, f);
    AfterConcat(s, begin, rest);
    more := [Advance(false)] + rest;
    assert [Advance(false)] + more == begin + rest;
    StartsDiffer(s.starts, After(s, begin + rest), i, j, job);
  }

  lemma StartsDiffer(before: seq<(nat, nat)>, s: State, i: nat, j: nat, job: nat)
    requires before + [(i, j)] <= s.starts && |s.starts| > |before| + 1 && Last(s.starts) == (i, job) && job != j
    ensures StartedTwice(s, i)
  {
    assert s.starts[|before|] == (before + [(i, j)])[|before|] == (i, j);
    assert s.starts[|s.starts| - 1] == (i, job);
  }
}
