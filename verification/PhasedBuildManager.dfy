/** The runner of a phased build as the program it is: one pass over the phases that updates the build in
    place and checkpoints it as it goes. Every method is one step of the state machine in PhasedBuilds, so
    a whole uninterrupted pass is one of its runs. */
module PhasedBuildManager {
  import opened PhasedBuilds

  class Manager {
    var build: Build
    var disk: Build
    var jobs: seq<Job>
    ghost var starts: seq<(nat, nat)>
    ghost var runner: Runner

    ghost function View(): State
      reads this
    {
      State(runner, build, disk, jobs, starts)
    }

    constructor (phases: nat)
      ensures View() == Started(phases)
      ensures |build.phases| == phases && (forall i :: 0 <= i < phases ==> build.phases[i] == Phase(None, Pending))
      ensures build.status == Planning && !build.cancelled && disk == build && jobs == []
    {
      var initial := Build(seq(phases, i => Phase(None, Pending)), Planning, false);
      build, disk, jobs := initial, initial, [];
      starts, runner := [], Look(0);
    }

    /** The write either reaches the disk or is given up on after its retries; the build goes on. */
    method Checkpoint(saved: bool)
      modifies this`disk
      ensures disk == if saved then build else old(disk)
    {
      if saved {
        disk := build;
      }
    }

    method EnterPhase(i: nat, saved: bool)
      requires runner == Enter(i) && i < |build.phases|
      modifies this
      ensures View() == Advanced(old(View()), saved)
      ensures runner == Launch(i) && |build.phases| == |old(build.phases)|
    {
      var phase := build.phases[i].(status := Running);
      build := build.With(i, phase).(status := Active);
      runner := Launch(i);
      Checkpoint(saved);
    }

    /** Resumes the phase's job if it has one, otherwise creates one. */
    method LaunchPhase(i: nat) returns (created: bool)
      requires runner == Launch(i) && i < |build.phases|
      modifies this
      ensures View() == Advanced(old(View()), false)
      ensures created == old(build.phases[i].job).None? && runner == if created then Record(i) else Wait(i)
      ensures |build.phases| == |old(build.phases)| && build.phases[i].job.Some?
      ensures !created ==> Reported(jobs, build.phases[i].job.value) == Some(JobRunning) ==>
        build.phases[i].job.value < |jobs| && jobs[build.phases[i].job.value].live == Some(JobRunning)
      ensures created ==> build.phases[i].job.value < |jobs| && jobs[build.phases[i].job.value].live == Some(JobRunning)
    {
      var phase := build.phases[i];
      if phase.job.Some? {
        var j := phase.job.value;
        if j < |jobs| {
          jobs := jobs[j := ResumedJob(jobs[j])];
        }
        runner := Wait(i);
        return false;
      }
      build := build.With(i, phase.(job := Some(|jobs|)));
      jobs := jobs + [Job(Some(JobRunning), None)];
      runner := Record(i);
      return true;
    }

    /** Saves the new job's id, and only then starts the job. */
    method StartJob(i: nat, saved: bool)
      requires runner == Record(i) && i < |build.phases| && build.phases[i].job.Some?
      modifies this`disk, this`starts, this`runner
      ensures View() == Advanced(Advanced(old(View()), saved), false) && runner == Wait(i)
    {
      Checkpoint(saved);
      starts := starts + [(i, build.phases[i].job.value)];
      runner := Wait(i);
    }

    /** Polls until the job has ended or cannot be found; `ok` says how it ends. */
    method AwaitJob(i: nat, ok: bool) returns (end: Option<JobStatus>, ghost waited: seq<Step>)
      requires runner == Wait(i) && i < |build.phases| && build.phases[i].job.Some?
      requires var j := build.phases[i].job.value;
        Reported(jobs, j) == Some(JobRunning) ==> j < |jobs| && jobs[j].live == Some(JobRunning)
      modifies this`jobs, this`runner
      ensures View() == After(old(View()), waited) && runner == Act(i, end)
      ensures |waited| <= 2 && forall x :: x in waited ==> x.Advance? || x.JobEnds?
    {
      var j := build.phases[i].job.value;
      end := Reported(jobs, j);
      if end == Some(JobRunning) {
        jobs := jobs[j := jobs[j].(live := Some(if ok then JobDone else JobFailed))];
        end := jobs[j].live;
        runner := Act(i, end);
        waited := [JobEnds(j, ok), Advance(false)];
        TwoSteps(old(View()), JobEnds(j, ok), Advance(false));
      } else {
        runner := Act(i, end);
        waited := [Advance(false)];
        OneStep(old(View()), Advance(false));
      }
    }

    /** Records how the phase ended; only a phase whose job is done lets the pass go on. */
    method SettlePhase(i: nat, end: Option<JobStatus>, saved: bool) returns (goesOn: bool)
      requires runner == Act(i, end) && i < |build.phases|
      modifies this
      ensures View() == Advanced(old(View()), saved)
      ensures |build.phases| == |old(build.phases)|
      ensures goesOn ==> runner == Look(i + 1)
      ensures !goesOn ==> runner == Gone
    {
      var phase := build.phases[i];
      if build.cancelled {
        build := build.With(i, phase.(status := Stopped)).(status := Cancelled);
      } else if end.None? {
        build := build.With(i, phase.(status := Failed(JobDisappeared))).(status := Broken);
      } else if end != Some(JobDone) {
        build := build.With(i, phase.(status := Failed(JobErrored))).(status := Broken);
      } else {
        build := build.With(i, phase.(status := Done));
        runner := Look(i + 1);
        Checkpoint(saved);
        return true;
      }
      runner := Gone;
      Checkpoint(saved);
      return false;
    }

    /** What is decided about a phase before it is entered: a finished one is passed over, and a cancelled
        build stops. */
    method LookAtPhase(i: nat, saved: bool)
      requires runner == Look(i) && i < |build.phases|
      modifies this
      ensures View() == Advanced(old(View()), saved) && build.phases == old(build.phases)
      ensures runner ==
        if build.phases[i].status.Done? then Look(i + 1) else if old(build.cancelled) then Gone else Enter(i)
    {
      if build.phases[i].status == Done {
        runner := Look(i + 1);
      } else if build.cancelled {
        build := build.(status := Cancelled);
        runner := Gone;
        Checkpoint(saved);
      } else {
        runner := Enter(i);
      }
    }

    method FinishBuild(saved: bool)
      requires runner == Look(|build.phases|)
      modifies this
      ensures View() == Advanced(Advanced(old(View()), false), saved) && runner == Gone
    {
      build := build.(status := Complete);
      runner := Gone;
      Checkpoint(saved);
    }

    /** One phase from entering it to settling it; `saved` says which of its three checkpoints reach the disk. */
    method RunPhase(i: nat, saved: nat -> bool, ok: bool) returns (goesOn: bool, ghost steps: seq<Step>)
      requires runner == Enter(i) && i < |build.phases|
      modifies this
      ensures View() == After(old(View()), steps) && (forall x :: x in steps ==> x.Advance? || x.JobEnds?)
      ensures runner == (if goesOn then Look(i + 1) else Gone) && |build.phases| == |old(build.phases)|
    {
      hide After, Advanced;
      ghost var s := View();
      NoSteps(s);
      EnterPhase(i, saved(0));
      steps := Then(s, [], Advance(saved(0)));
      var created := LaunchPhase(i);
      steps := Then(s, steps, Advance(false));
      if created {
        StartJob(i, saved(1));
        steps := Then(s, steps, Advance(saved(1)));
        steps := Then(s, steps, Advance(false));
      }
      var end;
      ghost var waited;
      end, waited := AwaitJob(i, ok);
      AfterConcat(s, steps, waited);
      steps := steps + waited;
      goesOn := SettlePhase(i, end, saved(2));
      steps := Then(s, steps, Advance(saved(2)));
    }

    /** A pass over the phases from the first. `saved` says which checkpoints reach the disk, by phase and
        place, `ok` how the jobs end. */
    method RunPhases(saved: nat -> nat -> bool, ok: nat -> bool) returns (ghost steps: seq<Step>)
      requires runner == Look(0)
      modifies this
      ensures View() == After(old(View()), steps) && runner == Gone
      ensures forall x :: x in steps ==> x.Advance? || x.JobEnds?
    {
      hide After, Advanced;
      ghost var s := View();
      NoSteps(s);
      steps := [];
      var total := |build.phases|;
      for i := 0 to total
        invariant |build.phases| == total && runner == Look(i) && View() == After(s, steps)
        invariant forall x :: x in steps ==> x.Advance? || x.JobEnds?
      {
        var finished, cancelled := build.phases[i].status == Done, build.cancelled;
        LookAtPhase(i, saved(i)(0));
        steps := Then(s, steps, Advance(saved(i)(0)));
        if finished { continue; }
        if cancelled { return; }
        var goesOn;
        ghost var taken;
        goesOn, taken := RunPhase(i, saved(i), ok(i));
        AfterConcat(s, steps, taken);
        steps := steps + taken;
        if !goesOn { return; }
      }
      FinishBuild(saved(total)(0));
      steps := Then(s, steps, Advance(false));
      steps := Then(s, steps, Advance(saved(total)(0)));
    }
  }
}
