/** A quantity that every counted round spends: why a plan cannot be worked on forever. */
module PlanPotential {
  import opened PlanModel

  /** The smallest number of characters a round cut on characters can have generated. */
  const SMALLEST_CUT: nat := 18_001
  /** A task that is still below its reasoning limit at the top of a round has taken fewer cuts than this. */
  const MAX_CUTS: nat := 7
  const ROUNDS_PER_INTERVENTION: nat := MAX_ROUNDS_PER_TASK + MAX_CUTS

  function CutsCharged(t: TaskRec): (n: nat)
    ensures n <= MAX_CUTS
  {
    var n := t.reasoningChars / SMALLEST_CUT;
    if n > MAX_CUTS then MAX_CUTS else n
  }

  function TaskPotential(t: TaskRec): int {
    if t.status.Terminal() then 0
    else ROUNDS_PER_INTERVENTION * (MAX_INTERVENTIONS_PER_TASK - t.interventions) - t.roundsSpent - CutsCharged(t) + 1
  }

  function Total(tasks: seq<TaskRec>): int {
    if tasks == [] then 0 else TaskPotential(tasks[0]) + Total(tasks[1..])
  }

  function Potential(p: PlanRec): int {
    Total(p.tasks) + 20 * (MAX_PLAN_REVISIONS - p.revisions)
  }

  lemma {:induction false} TotalConcat(a: seq<TaskRec>, b: seq<TaskRec>)
    ensures Total(a + b) == Total(a) + Total(b)
  {
    if a == [] {
      assert a + b == b;
    } else {
      assert (a + b)[1..] == a[1..] + b;
      TotalConcat(a[1..], b);
    }
  }

  lemma {:induction false} TotalPointwise(a: seq<TaskRec>, b: seq<TaskRec>)
    requires |a| == |b| && forall k :: 0 <= k < |a| ==> TaskPotential(a[k]) == TaskPotential(b[k])
    ensures Total(a) == Total(b)
  {
    if a != [] {
      TotalPointwise(a[1..], b[1..]);
    }
  }

  lemma TotalSplit(tasks: seq<TaskRec>, i: nat)
    requires i < |tasks|
    ensures Total(tasks) == Total(tasks[..i]) + TaskPotential(tasks[i]) + Total(tasks[i + 1..])
  {
    TotalConcat(tasks[..i], tasks[i..]);
    assert tasks == tasks[..i] + tasks[i..];
    assert tasks[i..][1..] == tasks[i + 1..];
  }

  lemma PotentialWith(p: PlanRec, i: nat, t: TaskRec)
    requires i < |p.tasks|
    ensures Potential(p.With(i, t)) == Potential(p) - TaskPotential(p.tasks[i]) + TaskPotential(t)
  {
    var q := p.With(i, t);
    TotalSplit(p.tasks, i);
    TotalSplit(q.tasks, i);
    assert p.tasks[..i] == q.tasks[..i] && p.tasks[i + 1..] == q.tasks[i + 1..];
  }

  lemma {:induction false} TotalNonNegative(tasks: seq<TaskRec>)
    requires forall k :: 0 <= k < |tasks| ==> InBudget(tasks[k])
    ensures Total(tasks) >= 0
  {
    if tasks != [] {
      assert InBudget(tasks[0]);
      TotalNonNegative(tasks[1..]);
    }
  }

  lemma {:induction false} TotalAtMost(tasks: seq<TaskRec>)
    ensures Total(tasks) <= 58 * |tasks|
  {
    if tasks != [] {
      TotalAtMost(tasks[1..]);
    }
  }

  lemma PotentialBounds(p: PlanRec)
    requires WellFormed(p)
    ensures 0 <= Potential(p) <= 58 * |p.tasks| + 100
  {
    TotalNonNegative(p.tasks);
    TotalAtMost(p.tasks);
  }

  lemma RepairedTotal(p: PlanRec, i: nat, repair: TaskRec, q: PlanRec)
    requires Repaired(p, i, repair, q) && forall k :: 0 <= k < |p.tasks| ==> InBudget(p.tasks[k])
    ensures Total(q.tasks) == Total(p.tasks) + TaskPotential(repair)
  {
    hide Total;
    TotalSplit(q.tasks, i + 1);
    assert p.tasks == p.tasks[..i + 1] + p.tasks[i + 1..];
    TotalConcat(p.tasks[..i + 1], p.tasks[i + 1..]);
    forall k | 0 <= k < |q.tasks| && k != i + 1
      ensures TaskPotential(q.tasks[k]) == TaskPotential(p.tasks[IndexBefore(i, k)])
    {
      assert InBudget(p.tasks[IndexBefore(i, k)]);
    }
    TotalPointwise(q.tasks[..i + 1], p.tasks[..i + 1]);
    TotalPointwise(q.tasks[i + 2..], p.tasks[i + 1..]);
  }

  /** A repair is worth exactly the revision it consumes. */
  lemma RecoverSpendsRevision(p: PlanRec, i: nat)
    requires WellFormed(p) && i < |p.tasks|
    ensures Potential(Recover(p, i)) == Potential(p)
  {
    if RepairAllowed(p, p.tasks[i]) {
      var repair := RepairOf(p.tasks[i], |p.tasks| + 1);
      RecoverInserts(p, i);
      RepairedTotal(p, i, repair, Recover(p, i));
      assert TaskPotential(repair) == 20;
    }
  }

  /** An intervention never adds potential, and one that gives the task up pays for the round that
      still runs on it. */
  lemma InterveneSpends(p: PlanRec, i: nat)
    requires WellFormed(p) && i < |p.tasks| && p.tasks[i].status.InProgress?
    ensures Potential(Intervene(p, i)) <= Potential(p) - (if Intervene(p, i).tasks[i].status.Failed? then 1 else 0)
  {
    var t := p.tasks[i];
    assert InBudget(t);
    var q := p.With(i, ForcedTask(t));
    PotentialWith(p, i, ForcedTask(t));
    assert TaskPotential(t) >= TaskPotential(ForcedTask(t));
    if q.tasks[i].interventions >= MAX_INTERVENTIONS_PER_TASK {
      WithKeepsStarted(p, i, ForcedTask(t));
      RecoverSpendsRevision(q, i);
    }
  }
}
