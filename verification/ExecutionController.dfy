/** The controller between one job and its plan. Its methods update tasks, plan and job in place; each
    is proved to perform the transition PlanModel and JobModel give it. */
module Controller {
  import opened PlanModel
  import opened JobModel
  import opened ExecutionPlanState

  class Job {
    var saved: PlanRec
    var planned: bool
    var toolsCalled: seq<string>
    var toolOffsets: map<string, nat>
    var committed: bool
    var consecutiveCuts: nat
    var round: int
    var roundBudget: int
    var stallRecoveries: nat
    var autoContinues: nat
    var cancelled: bool
    var status: JobStatus
    var reason: Reason

    constructor ()
      ensures Rec(PlanRec([], 0)) == JobRec(PlanRec([], 0), PlanRec([], 0), false, [], map[], false, 0, 0, MAX_ROUNDS, 0, 0, false, Running, NoReason)
    {
      saved, planned := PlanRec([], 0), false;
      toolsCalled, toolOffsets, committed, consecutiveCuts := [], map[], false, 0;
      round, roundBudget, stallRecoveries, autoContinues := 0, MAX_ROUNDS, 0, 0;
      cancelled, status, reason := false, Running, NoReason;
    }

    function Rec(plan: PlanRec): JobRec
      reads this
    {
      JobRec(plan, saved, planned, toolsCalled, toolOffsets, committed, consecutiveCuts, round, roundBudget,
             stallRecoveries, autoContinues, cancelled, status, reason)
    }
  }

  class ExecutionController {
    const job: Job
    const plan: ExecutionPlan

    constructor (job: Job, plan: ExecutionPlan)
      ensures this.job == job && this.plan == plan
    {
      this.job, this.plan := job, plan;
    }

    ghost predicate Valid()
      reads plan
    {
      plan.Valid()
    }

    ghost function View(): JobRec
      reads job, plan, plan.tasks
    {
      job.Rec(plan.View())
    }

    method Sync()
      modifies job`saved
      ensures View() == Synced(old(View()), old(View()).plan)
    {
      job.saved := plan.ToDict();
    }

    method BeginTask(task: Task, inferred: seq<string>, ghost i: nat) returns (started: bool)
      requires Valid() && plan.Holds(task, i)
      modifies job, task
      ensures View() == Begun(old(View()), i, inferred)
      ensures started == !old(task.status).InProgress?
    {
      if task.status == InProgress { return false; }
      ghost var before := View();
      assert task.Rec() == before.plan.tasks[i];
      plan.Begin(task, i);
      if task.id !in job.toolOffsets {
        job.toolOffsets := job.toolOffsets[task.id := |job.toolsCalled|];
      }
      if task.validators == [] {
        task.validators := inferred;
      }
      plan.OneTaskChanged(i);
      ghost var begun := before.plan.With(i, WithValidators(StartedTask(before.plan.tasks[i]), inferred));
      assert plan.View() == begun;
      Sync();
      return true;
    }

    method ToolsRan(task: Task) returns (ran: bool)
      ensures ran == ToolsRanInTask(View(), task.id)
    {
      var offset := if task.id in job.toolOffsets then job.toolOffsets[task.id] else 0;
      return offset < |job.toolsCalled|;
    }

    method RecordRound(task: Task, progress: bool, chars: nat, ghost i: nat)
      requires Valid() && plan.Holds(task, i)
      modifies task
      ensures plan.View() == old(plan.View()).With(i, RoundRecordedTask(old(plan.View()).tasks[i], progress, chars))
    {
      task.roundsSpent := task.roundsSpent + 1;
      task.reasoningChars := task.reasoningChars + chars;
      if progress {
        task.roundsWithoutProgress := 0;
        task.Note();
      } else {
        task.roundsWithoutProgress := task.roundsWithoutProgress + 1;
      }
      plan.OneTaskChanged(i);
    }

    method InterventionReason(task: Task, thrashing: bool) returns (due: bool)
      ensures due == InterventionDue(task.Rec(), thrashing)
    {
      if task.roundsWithoutProgress >= MAX_ROUNDS_WITHOUT_PROGRESS { return true; }
      if thrashing { return true; }
      if task.reasoningChars > MAX_REASONING_CHARS_PER_TASK { return true; }
      return task.roundsSpent >= MAX_ROUNDS_PER_TASK;
    }

    method Intervene(task: Task, ghost i: nat)
      requires Valid() && plan.Holds(task, i)
      modifies job, plan, plan.tasks
      ensures Valid() && plan.Holds(task, i)
      ensures forall t :: t in plan.tasks ==> t in old(plan.tasks) || fresh(t)
      ensures View() == Synced(old(View()), PlanModel.Intervene(old(plan.View()), i))
    {
      hide PlanModel.Recover;
      ghost var before := plan.View();
      CountIntervention(task, i);
      if task.interventions >= MAX_INTERVENTIONS_PER_TASK {
        plan.Fail(task, i);
        WithTwice(before, i, InterventionCounted(before.tasks[i]), ForcedTask(before.tasks[i]));
        assert plan.View() == before.With(i, ForcedTask(before.tasks[i]));
        var _ := Recover(task, i);
      }
      ghost var after := PlanModel.Intervene(before, i);
      assert plan.View() == after;
      assert View() == old(View()).(plan := after);
      hide PlanModel.Intervene;
      Sync();
    }

    method CountIntervention(task: Task, ghost i: nat)
      requires Valid() && plan.Holds(task, i)
      modifies task
      ensures plan.View() == old(plan.View()).With(i, InterventionCounted(old(plan.View()).tasks[i]))
      ensures task.interventions == old(plan.View()).tasks[i].interventions + 1
    {
      task.interventions := task.interventions + 1;
      task.roundsWithoutProgress := 0;
      task.reasoningChars := 0;
      task.roundsSpent := 0;
      plan.OneTaskChanged(i);
    }

    method TryAdvance(task: Task, checksPass: bool, ghost i: nat) returns (advanced: bool)
      requires Valid() && plan.Holds(task, i)
      modifies job, task
      ensures var q := PlanModel.TryAdvance(old(plan.View()), i, ToolsRanInTask(old(View()), task.id), checksPass);
        if advanced then View() == Synced(old(View()), q) else View() == old(View()) && q == old(plan.View())
      ensures advanced == Advances(old(plan.View()).tasks[i], ToolsRanInTask(old(View()), task.id), checksPass)
    {
      if task.status != InProgress || task.validators == [] { return false; }
      var ran := ToolsRan(task);
      if task.notes == 0 && !ran { return false; }
      for k := 0 to |task.validators|
        invariant forall j :: 0 <= j < k ==> task.validators[j] !in EXPENSIVE_VALIDATORS
      {
        if task.validators[k] in EXPENSIVE_VALIDATORS { return false; }
      }
      if !checksPass { return false; }
      var _ := plan.RecordValidation(task, true, i);
      Sync();
      return true;
    }

    method OnCompletionClaim(task: Task, checksPass: bool, ghost i: nat) returns (completed: bool)
      requires Valid() && plan.Holds(task, i)
      modifies job, plan, plan.tasks
      ensures Valid() && plan.Holds(task, i)
      ensures forall t :: t in plan.tasks ==> t in old(plan.tasks) || fresh(t)
      ensures View() == Synced(old(View()), CompletionClaim(old(plan.View()), i, checksPass))
      ensures completed == checksPass
    {
      completed := plan.RecordValidation(task, checksPass, i);
      if !completed && task.status == Failed {
        var _ := Recover(task, i);
      }
      Sync();
    }

    method Recover(task: Task, ghost i: nat) returns (recovered: bool)
      requires Valid() && plan.Holds(task, i)
      modifies plan, plan.tasks
      ensures Valid() && plan.Holds(task, i)
      ensures forall t :: t in plan.tasks ==> t in old(plan.tasks) || fresh(t)
      ensures plan.View() == PlanModel.Recover(old(plan.View()), i)
    {
      hide IndexOf, RepairOf, RepointAll, RepairObjective, InsertAfter, CanInsert;
      ghost var before := plan.View();
      assert IndexOf(before.tasks, task.id) == i by {
        assert before.tasks[i].id == task.id;
      }
      var repeated := ObjectiveTaken(task);
      if task.isRecovery || repeated || plan.revisions >= MAX_PLAN_REVISIONS { return false; }
      var repair := MakeRepair(task, |plan.tasks| + 1);
      assert plan.View() == before && before.tasks[i] == task.Rec();
      assert RepairAllowed(before, before.tasks[i]);
      assert repair.Rec() == RepairOf(before.tasks[i], |before.tasks| + 1);
      recovered := InsertRepair(task, repair, i);
    }

    method InsertRepair(task: Task, repair: Task, ghost i: nat) returns (inserted: bool)
      requires Valid() && plan.Holds(task, i) && IndexOf(plan.View().tasks, task.id) == i
      requires repair !in plan.tasks
      modifies plan, plan.tasks, repair
      ensures Valid() && plan.Holds(task, i)
      ensures forall t :: t in plan.tasks ==> t in old(plan.tasks) || t == repair
      ensures inserted == CanInsert(old(plan.View()), task.id, repair.id)
      ensures plan.View() ==
        if !inserted then old(plan.View())
        else
          var q := InsertAfter(old(plan.View()), task.id, old(repair.Rec()));
          q.(tasks := RepointAll(q.tasks, task.id, repair.id))
    {
      hide IndexOf, RepointAll, InsertAfter, CanInsert;
      inserted := plan.Insert(task.id, repair);
      if inserted {
        RepointDependents(task.id, repair.id);
      }
    }

    method BlockingReason() returns (blocked: bool)
      ensures blocked == Blocks(plan.View())
    {
      if plan.tasks == [] { return false; }
      var stuck := plan.Stuck();
      if stuck { return true; }
      var complete := plan.Complete();
      return !complete;
    }

    method ObjectiveTaken(task: Task) returns (taken: bool)
      ensures taken <==> exists k :: 0 <= k < |plan.tasks| && plan.View().tasks[k].objective == RepairObjective(task.Rec())
    {
      for k := 0 to |plan.tasks|
        invariant forall j :: 0 <= j < k ==> plan.View().tasks[j].objective != RepairObjective(task.Rec())
      {
        if plan.tasks[k].objective == "Recover: " + task.objective {
          assert plan.View().tasks[k].objective == RepairObjective(task.Rec());
          return true;
        }
      }
      return false;
    }

    method MakeRepair(task: Task, index: nat) returns (repair: Task)
      ensures fresh(repair) && repair.Rec() == RepairOf(task.Rec(), index)
    {
      repair := new Task.Make("Recover: " + task.objective, index, [], task.requiredTools,
                              task.expectedArtifacts, task.validators);
      repair.isRecovery := true;
      repair.interventions := MAX_INTERVENTIONS_PER_TASK - 1;
      repair.Note();
    }

    method RepointDependents(oldId: string, newId: string)
      requires Valid()
      modifies plan.tasks
      ensures plan.View() == old(plan.View()).(tasks := RepointAll(old(plan.View()).tasks, oldId, newId))
      ensures plan.tasks == old(plan.tasks) && forall k :: 0 <= k < |plan.tasks| ==>
        var t, u := old(plan.View()).tasks[k], plan.tasks[k];
        && |u.dependsOn| == |t.dependsOn|
        && (forall d :: 0 <= d < |t.dependsOn| ==> u.dependsOn[d] == if t.dependsOn[d] == oldId then newId else t.dependsOn[d])
        && u.status == (if t.status.Blocked? && oldId in t.dependsOn then Pending else t.status)
        && u.Rec() == t.(dependsOn := u.dependsOn, status := u.status)
    {
      ghost var before := plan.View().tasks;
      for k := 0 to |plan.tasks|
        invariant forall j :: 0 <= j < |plan.tasks| ==>
          plan.tasks[j].Rec() == if j < k then RepointTask(before[j], oldId, newId) else before[j]
      {
        var other := plan.tasks[k];
        if oldId in other.dependsOn {
          other.dependsOn := RepointIds(other.dependsOn, oldId, newId);
          if other.status == Blocked {
            other.status := Pending;
          }
        }
      }
      assert Recs(plan.tasks) == RepointAll(before, oldId, newId);
    }
  }
}
