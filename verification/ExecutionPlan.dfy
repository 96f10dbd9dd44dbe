/** The mutable plan: `Task` objects updated in place and an `ExecutionPlan` that owns an ordered list
    of them. Every method is proved to perform the transition of the same name in PlanModel. */
module ExecutionPlanState {
  import opened PlanModel
  import opened Ids

  class Task {
    const id: string
    const objective: string
    var status: Status
    var dependsOn: seq<string>
    const requiredTools: seq<string>
    const expectedArtifacts: seq<string>
    var validators: seq<string>
    var validation: ValidationState
    var attempts: nat
    var interventions: nat
    var isRecovery: bool
    var roundsSpent: nat
    var roundsWithoutProgress: nat
    var reasoningChars: nat
    var notes: nat

    function Rec(): TaskRec
      reads this
    {
      TaskRec(id, objective, status, dependsOn, requiredTools, expectedArtifacts, validators, validation,
              attempts, interventions, isRecovery, roundsSpent, roundsWithoutProgress, reasoningChars, notes)
    }

    constructor FromDict(t: TaskRec)
      ensures Rec() == t
    {
      id, objective, status, dependsOn := t.id, t.objective, t.status, t.dependsOn;
      requiredTools, expectedArtifacts, validators := t.requiredTools, t.expectedArtifacts, t.validators;
      validation, attempts, interventions := t.validation, t.attempts, t.interventions;
      isRecovery, roundsSpent := t.isRecovery, t.roundsSpent;
      roundsWithoutProgress, reasoningChars, notes := t.roundsWithoutProgress, t.reasoningChars, t.notes;
    }

    constructor Make(objective: string, index: nat, dependsOn: seq<string>, requiredTools: seq<string>,
                     expectedArtifacts: seq<string>, validators: seq<string>)
      ensures Rec() == FreshTask(objective, index, dependsOn, requiredTools, expectedArtifacts, validators)
      ensures id == "t" + Decimal(index) + "-" + Slug(objective, "task" + Decimal(index))
    {
      this.id := MakeTaskId(index, Slug(objective, "task" + Decimal(index)));
      this.objective, this.status, this.dependsOn := objective, Pending, dependsOn;
      this.requiredTools, this.expectedArtifacts, this.validators := requiredTools, expectedArtifacts, validators;
      validation, attempts, interventions := Unvalidated, 0, 0;
      isRecovery, roundsSpent := false, 0;
      roundsWithoutProgress, reasoningChars, notes := 0, 0, 0;
    }

    method Note()
      modifies this
      ensures Rec() == NotedTask(old(Rec()))
    {
      notes := notes + 1;
      if notes > MAX_NOTES {
        notes := MAX_NOTES;
      }
    }

    method Reopen()
      modifies this
      ensures Rec() == RestartedTask(old(Rec()))
    {
      if status == Blocked || status == Failed {
        status := Pending;
        interventions, attempts := 0, 0;
        roundsSpent, roundsWithoutProgress := 0, 0;
        validation := Unvalidated;
      }
    }
  }

  /** Ids are unique, so no task object occurs twice either. */
  ghost predicate Distinct(tasks: seq<Task>) {
    forall i, j :: 0 <= i < j < |tasks| ==> tasks[i].id != tasks[j].id
  }

  ghost function Recs(tasks: seq<Task>): (r: seq<TaskRec>)
    reads tasks
    ensures |r| == |tasks| && forall i :: 0 <= i < |tasks| ==> r[i] == tasks[i].Rec()
  {
    seq(|tasks|, i requires 0 <= i < |tasks| reads tasks => tasks[i].Rec())
  }

  /** `list.insert(i + 1, x)` */
  function WithAfter<T>(s: seq<T>, i: int, x: T): (r: seq<T>)
    requires -1 <= i < |s|
    ensures |r| == |s| + 1 && r[i + 1] == x
    ensures forall k :: 0 <= k <= i ==> r[k] == s[k]
    ensures forall k :: i < k < |s| ==> r[k + 1] == s[k]
  {
    s[..i + 1] + [x] + s[i + 1..]
  }

  lemma InsertionView(tasks: seq<Task>, i: nat, task: Task)
    requires Distinct(tasks) && i < |tasks| && forall k :: 0 <= k < |tasks| ==> tasks[k].id != task.id
    ensures Distinct(WithAfter(tasks, i, task))
    ensures Recs(WithAfter(tasks, i, task)) == Recs(tasks)[..i + 1] + [task.Rec()] + Recs(tasks)[i + 1..]
  {
    hide WithAfter, Recs;
    var longer, recs := WithAfter(tasks, i, task), Recs(tasks);
    forall a, b | 0 <= a < b < |longer| ensures longer[a].id != longer[b].id {
      assert a != i + 1 ==> longer[a] == tasks[if a <= i then a else a - 1];
      assert b != i + 1 ==> longer[b] == tasks[if b <= i then b else b - 1];
    }
    forall k | 0 <= k < |longer| ensures longer[k].Rec() == (recs[..i + 1] + [task.Rec()] + recs[i + 1..])[k] {
      assert k != i + 1 ==> longer[k] == tasks[if k <= i then k else k - 1];
    }
  }

  class ExecutionPlan {
    var tasks: seq<Task>
    var revisions: nat

    ghost predicate Valid()
      reads this
    {
      Distinct(tasks)
    }

    ghost predicate Holds(task: Task, i: nat)
      reads this
    {
      i < |tasks| && tasks[i] == task
    }

    ghost function View(): PlanRec
      reads this, tasks
    {
      PlanRec(Recs(tasks), revisions)
    }

    constructor FromDict(p: PlanRec)
      ensures fresh(tasks) && View() == p && (UniqueIds(p.tasks) ==> Valid())
    {
      tasks, revisions := [], p.revisions;
      new;
      var loaded: seq<Task> := [];
      for i := 0 to |p.tasks|
        invariant |loaded| == i && fresh(loaded)
        invariant forall k :: 0 <= k < i ==> loaded[k].Rec() == p.tasks[k]
        invariant revisions == p.revisions
      {
        var task := new Task.FromDict(p.tasks[i]);
        loaded := loaded + [task];
      }
      tasks := loaded;
      assert Recs(tasks) == p.tasks;
    }

    method ToDict() returns (p: PlanRec)
      ensures p == View()
    {
      var dumped: seq<TaskRec> := [];
      for i := 0 to |tasks|
        invariant |dumped| == i && forall k :: 0 <= k < i ==> dumped[k] == tasks[k].Rec()
      {
        dumped := dumped + [tasks[i].Rec()];
      }
      p := PlanRec(dumped, revisions);
      assert dumped == Recs(tasks);
    }

    // ---- queries ----

    method GetIndex(id: string) returns (i: int)
      ensures i == IndexOf(View().tasks, id)
    {
      i := 0;
      while i < |tasks|
        invariant 0 <= i <= |tasks|
        invariant forall k :: 0 <= k < i ==> View().tasks[k].id != id
      {
        if tasks[i].id == id { return; }
        i := i + 1;
      }
      i := -1;
    }

    method Ready(task: Task) returns (ready: bool)
      ensures ready == IsReady(View().tasks, task.Rec())
    {
      for d := 0 to |task.dependsOn|
        invariant forall k :: 0 <= k < d ==> DependencyMet(View().tasks, task.dependsOn[k])
      {
        var i := GetIndex(task.dependsOn[d]);
        if i < 0 || (tasks[i].status != Completed && tasks[i].status != Failed) {
          assert !DependencyMet(View().tasks, task.dependsOn[d]);
          return false;
        }
      }
      return true;
    }

    method CurrentTask() returns (i: int)
      ensures i == Current(View()) && -1 <= i < |tasks|
    {
      ghost var v := View();
      i := 0;
      while i < |tasks|
        invariant 0 <= i <= |tasks|
        invariant forall k :: 0 <= k < i ==> !v.tasks[k].status.InProgress?
      {
        if tasks[i].status == InProgress { return; }
        i := i + 1;
      }
      i := 0;
      while i < |tasks|
        invariant 0 <= i <= |tasks|
        invariant forall k :: 0 <= k < i ==> !(v.tasks[k].status.Pending? && IsReady(v.tasks, v.tasks[k]))
      {
        var ready := Ready(tasks[i]);
        if tasks[i].status == Pending && ready { return; }
        i := i + 1;
      }
      i := -1;
    }

    method Complete() returns (complete: bool)
      ensures complete == (tasks != [] && IsComplete(View()))
    {
      ghost var v := View();
      var succeeded := false;
      for i := 0 to |tasks|
        invariant forall k :: 0 <= k < i ==> v.tasks[k].status.Terminal()
        invariant succeeded <==> exists k :: 0 <= k < i && v.tasks[k].status.Completed?
      {
        if tasks[i].status != Completed && tasks[i].status != Failed {
          assert !v.tasks[i].status.Terminal();
          return false;
        }
        if tasks[i].status == Completed {
          assert v.tasks[i].status.Completed?;
          succeeded := true;
        }
      }
      return succeeded;
    }

    method AnyFailed() returns (failed: bool)
      ensures failed == PlanModel.AnyFailed(View())
    {
      for i := 0 to |tasks|
        invariant forall k :: 0 <= k < i ==> !View().tasks[k].status.Failed?
      {
        if tasks[i].status == Failed {
          assert View().tasks[i].status.Failed?;
          return true;
        }
      }
      return false;
    }

    method Stuck() returns (stuck: bool)
      ensures stuck == IsStuck(View())
    {
      ghost var v := View();
      var current := CurrentTask();
      for i := 0 to |tasks|
        invariant forall k :: 0 <= k < i ==> v.tasks[k].status.Terminal()
      {
        if tasks[i].status != Completed && tasks[i].status != Failed {
          assert !v.tasks[i].status.Terminal();
          return current < 0;
        }
      }
      return false;
    }

    // ---- transitions ----

    /** Tasks are distinct objects, so a change to one of them is an update at its position. */
    twostate lemma OneTaskChanged(i: nat)
      requires Distinct(tasks) && i < |tasks|
      requires tasks == old(tasks) && revisions == old(revisions)
      requires forall k :: 0 <= k < |tasks| && k != i ==> unchanged(tasks[k])
      ensures View() == old(View()).With(i, tasks[i].Rec())
    {
      assert Recs(tasks) == old(Recs(tasks))[i := tasks[i].Rec()];
    }

    method Begin(task: Task, ghost i: nat)
      requires Valid() && Holds(task, i)
      modifies task
      ensures View() == old(View()).With(i, StartedTask(old(View()).tasks[i]))
    {
      if task.status != InProgress {
        task.status := InProgress;
        task.validation := Unvalidated;
      }
      OneTaskChanged(i);
    }

    method Finish(task: Task, ghost i: nat)
      requires Valid() && Holds(task, i)
      modifies task
      ensures View() == old(View()).With(i, CompletedTask(old(View()).tasks[i]))
    {
      task.status := Completed;
      task.validation := Passed;
      task.roundsWithoutProgress := 0;
      OneTaskChanged(i);
    }

    method Fail(task: Task, ghost i: nat)
      requires Valid() && Holds(task, i)
      modifies task
      ensures View() == old(View()).With(i, FailedTask(old(View()).tasks[i]))
    {
      task.status := Failed;
      OneTaskChanged(i);
    }

    method RecordValidation(task: Task, passed: bool, ghost i: nat) returns (completed: bool)
      requires Valid() && Holds(task, i)
      modifies task
      ensures View() == old(View()).With(i, ValidatedTask(old(View()).tasks[i], passed))
      ensures completed == passed
    {
      if passed {
        Finish(task, i);
        return true;
      }
      task.validation := Rejected;
      task.attempts := task.attempts + 1;
      OneTaskChanged(i);
      if task.attempts >= MAX_ATTEMPTS_PER_TASK {
        ghost var rejected := task.Rec();
        Fail(task, i);
        WithTwice(old(View()), i, rejected, FailedTask(rejected));
      }
      return false;
    }

    method Insert(afterId: string, task: Task) returns (inserted: bool)
      requires Valid()
      modifies this
      ensures Valid() && View() == InsertAfter(old(View()), afterId, task.Rec())
      ensures inserted == CanInsert(old(View()), afterId, task.id)
      ensures inserted <==>
        && old(revisions) < 5 && (forall k :: 0 <= k < |old(tasks)| ==> old(tasks)[k].id != task.id)
        && exists k :: 0 <= k < |old(tasks)| && old(tasks)[k].id == afterId
      ensures !inserted ==> View() == old(View())
      ensures tasks == if inserted then WithAfter(old(tasks), IndexOf(old(View()).tasks, afterId), task) else old(tasks)
    {
      hide IndexOf, Recs, WithAfter, Distinct;
      ghost var before := View();
      var existing := GetIndex(task.id);
      var i := GetIndex(afterId);
      inserted := revisions < MAX_PLAN_REVISIONS && existing < 0 && i >= 0;
      assert inserted == CanInsert(before, afterId, task.id);
      if inserted {
        assert forall k :: 0 <= k < |tasks| ==> tasks[k].id == before.tasks[k].id;
        assert InsertAfter(before, afterId, task.Rec())
            == PlanRec(before.tasks[..i + 1] + [task.Rec()] + before.tasks[i + 1..], before.revisions + 1);
        Splice(i, task);
      }
    }

    method Splice(i: nat, task: Task)
      requires Valid() && i < |tasks| && forall k :: 0 <= k < |tasks| ==> tasks[k].id != task.id
      modifies this
      ensures Valid() && tasks == WithAfter(old(tasks), i, task)
      ensures var before := old(View());
        View() == PlanRec(before.tasks[..i + 1] + [task.Rec()] + before.tasks[i + 1..], before.revisions + 1)
    {
      hide Recs, WithAfter;
      InsertionView(tasks, i, task);
      tasks := WithAfter(tasks, i, task);
      revisions := revisions + 1;
    }

    /** A user's Continue on a plan that gave up: what was blocked or failed is pending again, with its
        counters cleared, and the plan may be revised anew. */
    method Reopen()
      requires Valid()
      modifies this, tasks
      ensures Valid() && tasks == old(tasks) && View() == Restarted(old(View()))
    {
      ghost var before := View().tasks;
      for k := 0 to |tasks|
        invariant tasks == old(tasks) && Valid()
        invariant forall j :: 0 <= j < |tasks| ==> tasks[j].Rec() == if j < k then RestartedTask(before[j]) else before[j]
      {
        tasks[k].Reopen();
      }
      revisions := 0;
      assert Recs(tasks) == Restarted(old(View())).tasks;
    }
  }
}
