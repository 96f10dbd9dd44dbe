/** The execution plan as a value: what each transition of `ExecutionPlan` and `ExecutionController`
    does to a plan, and the shape every reachable plan keeps. The classes in ExecutionPlan.dfy and
    ExecutionController.dfy are proved to perform exactly these transitions. */
module PlanModel {
  import opened Ids

  const MAX_ATTEMPTS_PER_TASK: nat := 3
  const MAX_PLAN_REVISIONS: nat := 5
  const MAX_ROUNDS_WITHOUT_PROGRESS: nat := 3
  const MAX_ROUNDS_PER_TASK: nat := 12
  const MAX_REASONING_CHARS_PER_TASK: nat := 120_000
  const MAX_INTERVENTIONS_PER_TASK: nat := 3
  const MAX_NOTES: nat := 12
  const EXPENSIVE_VALIDATORS: set<string> := {"renders_cleanly", "no_build_errors"}

  datatype Status = Pending | InProgress | Blocked | Completed | Failed {
    predicate Terminal() { Completed? || Failed? }
  }

  datatype ValidationState = Unvalidated | Passed | Rejected

  datatype TaskRec = TaskRec(
    id: string, objective: string, status: Status, dependsOn: seq<string>,
    requiredTools: seq<string>, expectedArtifacts: seq<string>, validators: seq<string>,
    validation: ValidationState, attempts: nat, interventions: nat, isRecovery: bool,
    roundsSpent: nat, roundsWithoutProgress: nat, reasoningChars: nat, notes: nat)

  datatype PlanRec = PlanRec(tasks: seq<TaskRec>, revisions: nat) {
    function With(i: nat, t: TaskRec): PlanRec
      requires i < |tasks|
    {
      this.(tasks := tasks[i := t])
    }
  }

  lemma WithTwice(p: PlanRec, i: nat, t: TaskRec, u: TaskRec)
    requires i < |p.tasks|
    ensures p.With(i, t).With(i, u) == p.With(i, u)
  {
    assert p.tasks[i := t][i := u] == p.tasks[i := u];
  }

  // ---- lookup ----

  /** Index of the first element satisfying `p`, or -1. */
  function FindFirst<T>(s: seq<T>, p: T -> bool): (i: int)
    ensures -1 <= i < |s|
    ensures i >= 0 ==> p(s[i]) && forall j :: 0 <= j < i ==> !p(s[j])
    ensures i < 0 ==> forall j :: 0 <= j < |s| ==> !p(s[j])
  {
    if s == [] then -1
    else
      var i := FindFirst(s[..|s| - 1], p);
      if i >= 0 then i else if p(s[|s| - 1]) then |s| - 1 else -1
  }

  function IndexOf(tasks: seq<TaskRec>, id: string): (i: int)
    ensures -1 <= i < |tasks|
    ensures i >= 0 ==> tasks[i].id == id && forall j :: 0 <= j < i ==> tasks[j].id != id
    ensures i < 0 ==> forall j :: 0 <= j < |tasks| ==> tasks[j].id != id
  {
    FindFirst(tasks, (t: TaskRec) => t.id == id)
  }

  predicate DependencyMet(tasks: seq<TaskRec>, id: string) {
    var i := IndexOf(tasks, id);
    i >= 0 && tasks[i].status.Terminal()
  }

  predicate IsReady(tasks: seq<TaskRec>, t: TaskRec) {
    forall d :: d in t.dependsOn ==> DependencyMet(tasks, d)
  }

  /** The started task if there is one, otherwise the earliest ready pending task, otherwise -1. */
  function Current(p: PlanRec): (i: int)
    ensures -1 <= i < |p.tasks|
  {
    var started := FindFirst(p.tasks, (t: TaskRec) => t.status.InProgress?);
    if started >= 0 then started
    else FindFirst(p.tasks, (t: TaskRec) => t.status.Pending? && IsReady(p.tasks, t))
  }

  predicate WorkRemains(p: PlanRec) {
    exists i :: 0 <= i < |p.tasks| && !p.tasks[i].status.Terminal()
  }

  predicate IsComplete(p: PlanRec) {
    && !WorkRemains(p)
    && exists i :: 0 <= i < |p.tasks| && p.tasks[i].status.Completed?
  }

  predicate IsStuck(p: PlanRec) {
    WorkRemains(p) && Current(p) < 0
  }

  /** `blocking_reason() is not None`. */
  predicate Blocks(p: PlanRec) {
    p.tasks != [] && (IsStuck(p) || !IsComplete(p))
  }

  predicate AnyFailed(p: PlanRec) {
    exists i :: 0 <= i < |p.tasks| && p.tasks[i].status.Failed?
  }

  // ---- transitions of one task ----

  function StartedTask(t: TaskRec): TaskRec {
    if t.status.InProgress? then t else t.(status := InProgress, validation := Unvalidated)
  }

  function WithValidators(t: TaskRec, inferred: seq<string>): TaskRec {
    if t.validators == [] then t.(validators := inferred) else t
  }

  function CompletedTask(t: TaskRec): TaskRec {
    t.(status := Completed, validation := Passed, roundsWithoutProgress := 0)
  }

  function FailedTask(t: TaskRec): TaskRec {
    t.(status := Failed)
  }

  function ValidatedTask(t: TaskRec, passed: bool): TaskRec {
    if passed then CompletedTask(t)
    else
      var u := t.(validation := Rejected, attempts := t.attempts + 1);
      if u.attempts >= MAX_ATTEMPTS_PER_TASK then FailedTask(u) else u
  }

  function NotedTask(t: TaskRec): TaskRec {
    t.(notes := if t.notes < MAX_NOTES then t.notes + 1 else MAX_NOTES)
  }

  function RoundRecordedTask(t: TaskRec, progress: bool, chars: nat): TaskRec {
    var u := t.(roundsSpent := t.roundsSpent + 1, reasoningChars := t.reasoningChars + chars);
    if progress then NotedTask(u.(roundsWithoutProgress := 0))
    else u.(roundsWithoutProgress := u.roundsWithoutProgress + 1)
  }

  function ChargedTask(t: TaskRec, chars: nat): TaskRec {
    t.(reasoningChars := t.reasoningChars + chars)
  }

  predicate InterventionDue(t: TaskRec, thrashing: bool) {
    || t.roundsWithoutProgress >= MAX_ROUNDS_WITHOUT_PROGRESS
    || thrashing
    || t.reasoningChars > MAX_REASONING_CHARS_PER_TASK
    || t.roundsSpent >= MAX_ROUNDS_PER_TASK
  }

  /** An intervention is the answer to the counters that led to it, so it clears them. */
  function InterventionCounted(t: TaskRec): TaskRec {
    t.(interventions := t.interventions + 1, roundsWithoutProgress := 0, reasoningChars := 0, roundsSpent := 0)
  }

  function ForcedTask(t: TaskRec): TaskRec {
    var u := InterventionCounted(t);
    if u.interventions >= MAX_INTERVENTIONS_PER_TASK then FailedTask(u) else u
  }

  // ---- building tasks ----

  function Lower(c: char): char {
    if 'A' <= c <= 'Z' then 'a' + (c - 'A') else c
  }

  predicate IsSlugChar(c: char) {
    'a' <= c <= 'z' || '0' <= c <= '9'
  }

  /** Every run of other characters becomes one dash. */
  function Dashed(text: string): string {
    if text == [] then []
    else
      var rest, c := Dashed(text[..|text| - 1]), Lower(text[|text| - 1]);
      if IsSlugChar(c) then rest + [c]
      else if rest != [] && rest[|rest| - 1] == '-' then rest
      else rest + ['-']
  }

  function TrimEnd(s: string): string {
    if s != [] && s[|s| - 1] == '-' then TrimEnd(s[..|s| - 1]) else s
  }

  function TrimStart(s: string): string {
    if s != [] && s[0] == '-' then TrimStart(s[1..]) else s
  }

  function Slug(text: string, fallback: string): string {
    var s := TrimEnd(TrimStart(Dashed(text)));
    var short := TrimEnd(if |s| > 40 then s[..40] else s);
    if short == [] then fallback else short
  }

  lemma {:induction false} DashedShape(text: string)
    ensures forall c :: c in Dashed(text) ==> IsSlugChar(c) || c == '-'
    ensures forall i :: 0 < i < |Dashed(text)| ==> !(Dashed(text)[i - 1] == Dashed(text)[i] == '-')
  {
    if text != [] {
      DashedShape(text[..|text| - 1]);
    }
  }

  lemma {:induction false} TrimEndIsPrefix(s: string)
    ensures TrimEnd(s) <= s && (TrimEnd(s) != [] ==> TrimEnd(s)[|TrimEnd(s)| - 1] != '-')
  {
    if s != [] && s[|s| - 1] == '-' {
      TrimEndIsPrefix(s[..|s| - 1]);
    }
  }

  lemma {:induction false} TrimStartIsSuffix(s: string)
    ensures |TrimStart(s)| <= |s| && TrimStart(s) == s[|s| - |TrimStart(s)|..]
    ensures TrimStart(s) != [] ==> TrimStart(s)[0] != '-'
  {
    if s != [] && s[0] == '-' {
      TrimStartIsSuffix(s[1..]);
    }
  }

  /** A slug is the fallback or at most forty lower-case letters, digits and dashes, with no dash at either end. */
  lemma SlugShape(text: string, fallback: string)
    ensures var r := Slug(text, fallback);
      r != fallback ==>
        && 1 <= |r| <= 40 && r[0] != '-' && r[|r| - 1] != '-'
        && forall i :: 0 <= i < |r| ==> 'a' <= r[i] <= 'z' || '0' <= r[i] <= '9' || r[i] == '-'
  {
    hide Dashed, TrimEnd, TrimStart;
    var d := Dashed(text);
    DashedShape(text);
    var t := TrimStart(d);
    TrimStartIsSuffix(d);
    TrimEndIsPrefix(t);
    var s := TrimEnd(t);
    var short := if |s| > 40 then s[..40] else s;
    TrimEndIsPrefix(short);
    var r := TrimEnd(short);
    forall i | 0 <= i < |r| ensures IsSlugChar(r[i]) || r[i] == '-' {
      assert r[i] == short[i] == s[i] == t[i] == d[|d| - |t| + i];
      assert d[|d| - |t| + i] in d;
    }
    assert r != [] ==> r[0] == s[0] == t[0];
  }

  lemma {:induction false} DashedWord(word: string)
    requires forall i :: 0 <= i < |word| ==> IsSlugChar(word[i])
    ensures Dashed(word) == word
  {
    if word != [] {
      DashedWord(word[..|word| - 1]);
      assert IsSlugChar(word[|word| - 1]);
    }
  }

  lemma {:induction false} DashedWords(word: string, more: string)
    requires word != [] && (forall i :: 0 <= i < |word| ==> IsSlugChar(word[i])) && forall i :: 0 <= i < |more| ==> IsSlugChar(more[i])
    ensures Dashed(word + " " + more) == word + "-" + more
  {
    var all := word + " " + more;
    if more == [] {
      DashedWord(word);
      assert all[..|all| - 1] == word && all[|all| - 1] == ' ' && !IsSlugChar(Lower(' '));
      assert IsSlugChar(word[|word| - 1]);
      assert word + "-" + more == word + ['-'];
    } else {
      var n := |more| - 1;
      DashedWords(word, more[..n]);
      assert all[..|all| - 1] == word + " " + more[..n] && all[|all| - 1] == more[n] && IsSlugChar(more[n]);
      assert word + "-" + more == (word + "-" + more[..n]) + [more[n]];
    }
  }

  lemma {:induction false} NothingToTrim(s: string)
    requires s != [] && s[0] != '-' && s[|s| - 1] != '-'
    ensures TrimEnd(s) == s && TrimStart(s) == s
  {
  }

  /** Words that are short enough become the slug, with a dash between them. */
  lemma SlugOfWords(word: string, more: string, fallback: string)
    requires word != [] && more != [] && |word| + |more| < 40
    requires forall i :: 0 <= i < |word| ==> 'a' <= word[i] <= 'z' || '0' <= word[i] <= '9'
    requires forall i :: 0 <= i < |more| ==> 'a' <= more[i] <= 'z' || '0' <= more[i] <= '9'
    ensures Slug(word, fallback) == word && Slug(word + " " + more, fallback) == word + "-" + more
  {
    hide Dashed, TrimEnd, TrimStart;
    DashedWord(word);
    DashedWords(word, more);
    NothingToTrim(word);
    NothingToTrim(word + "-" + more);
  }

  function FreshTask(objective: string, index: nat, dependsOn: seq<string>, requiredTools: seq<string>,
                     expectedArtifacts: seq<string>, validators: seq<string>): TaskRec {
    TaskRec(MakeTaskId(index, Slug(objective, "task" + Decimal(index))), objective, Pending, dependsOn,
            requiredTools, expectedArtifacts, validators, Unvalidated, 0, 0, false, 0, 0, 0, 0)
  }

  function RepairObjective(t: TaskRec): string {
    "Recover: " + t.objective
  }

  /** A repair starts with all but one intervention already spent and one note: why the task failed. */
  function RepairOf(t: TaskRec, index: nat): TaskRec {
    FreshTask(RepairObjective(t), index, [], t.requiredTools, t.expectedArtifacts, t.validators)
      .(isRecovery := true, interventions := MAX_INTERVENTIONS_PER_TASK - 1, notes := 1)
  }

  // ---- transitions of the plan ----

  predicate CanRevise(p: PlanRec) {
    p.revisions < MAX_PLAN_REVISIONS
  }

  predicate CanInsert(p: PlanRec, afterId: string, newId: string) {
    CanRevise(p) && IndexOf(p.tasks, newId) < 0 && IndexOf(p.tasks, afterId) >= 0
  }

  function InsertAfter(p: PlanRec, afterId: string, t: TaskRec): PlanRec {
    if CanInsert(p, afterId, t.id) then
      var i := IndexOf(p.tasks, afterId);
      PlanRec(p.tasks[..i + 1] + [t] + p.tasks[i + 1..], p.revisions + 1)
    else p
  }

  function RepointIds(ids: seq<string>, oldId: string, newId: string): (r: seq<string>)
    ensures |r| == |ids|
    ensures forall k :: 0 <= k < |ids| ==> r[k] == if ids[k] == oldId then newId else ids[k]
  {
    seq(|ids|, k requires 0 <= k < |ids| => if ids[k] == oldId then newId else ids[k])
  }

  function RepointTask(t: TaskRec, oldId: string, newId: string): TaskRec {
    if oldId in t.dependsOn then
      t.(dependsOn := RepointIds(t.dependsOn, oldId, newId),
         status := if t.status.Blocked? then Pending else t.status)
    else t
  }

  function RepointAll(tasks: seq<TaskRec>, oldId: string, newId: string): (r: seq<TaskRec>)
    ensures |r| == |tasks|
    ensures forall k :: 0 <= k < |tasks| ==> r[k] == RepointTask(tasks[k], oldId, newId)
  {
    seq(|tasks|, k requires 0 <= k < |tasks| => RepointTask(tasks[k], oldId, newId))
  }

  predicate RepairAllowed(p: PlanRec, t: TaskRec) {
    && !t.isRecovery
    && (forall k :: 0 <= k < |p.tasks| ==> p.tasks[k].objective != RepairObjective(t))
    && CanRevise(p)
  }

  /** Insert a repair directly after task `i` and make everything that waited for `i` wait for it. */
  function Recover(p: PlanRec, i: nat): (q: PlanRec)
    requires i < |p.tasks|
    ensures |q.tasks| >= |p.tasks|
  {
    var t := p.tasks[i];
    var repair := RepairOf(t, |p.tasks| + 1);
    if RepairAllowed(p, t) && CanInsert(p, t.id, repair.id) then
      var q := InsertAfter(p, t.id, repair);
      q.(tasks := RepointAll(q.tasks, t.id, repair.id))
    else p
  }

  function Intervene(p: PlanRec, i: nat): (q: PlanRec)
    requires i < |p.tasks|
    ensures |q.tasks| >= |p.tasks|
  {
    var q := p.With(i, ForcedTask(p.tasks[i]));
    if q.tasks[i].interventions >= MAX_INTERVENTIONS_PER_TASK then Recover(q, i) else q
  }

  /** `try_advance`: only a started task with cheap checks and some sign of work is completed. */
  predicate Advances(t: TaskRec, toolsRanInTask: bool, checksPass: bool) {
    && t.status.InProgress? && t.validators != []
    && (t.notes > 0 || toolsRanInTask)
    && (forall v :: v in t.validators ==> v !in EXPENSIVE_VALIDATORS)
    && checksPass
  }

  function TryAdvance(p: PlanRec, i: nat, toolsRanInTask: bool, checksPass: bool): PlanRec
    requires i < |p.tasks|
  {
    if Advances(p.tasks[i], toolsRanInTask, checksPass) then p.With(i, ValidatedTask(p.tasks[i], true)) else p
  }

  /** Without the model saying so, a task is only ever completed while it is being worked on, after some work,
      and if it has checks, none of which needs a build or a browser, and they pass. */
  lemma AdvancesIff(p: PlanRec, i: nat, toolsRanInTask: bool, checksPass: bool)
    requires i < |p.tasks|
    ensures var t, q := p.tasks[i], TryAdvance(p, i, toolsRanInTask, checksPass);
      if t.status.InProgress? && (t.notes > 0 || toolsRanInTask) && checksPass
         && t.validators != [] && "renders_cleanly" !in t.validators && "no_build_errors" !in t.validators
      then
        && |q.tasks| == |p.tasks| && q.revisions == p.revisions && q.tasks[i].status.Completed?
        && forall k :: 0 <= k < |p.tasks| && k != i ==> q.tasks[k] == p.tasks[k]
      else q == p
  {
  }

  function CompletionClaim(p: PlanRec, i: nat, checksPass: bool): (q: PlanRec)
    requires i < |p.tasks|
    ensures |q.tasks| >= |p.tasks|
  {
    var q := p.With(i, ValidatedTask(p.tasks[i], checksPass));
    if !checksPass && q.tasks[i].status.Failed? then Recover(q, i) else q
  }

  /** `continue_job` on `plan_blocked` or `tasks_failed`: failed and blocked tasks start over, except
      that their reasoning characters are kept. */
  function RestartedTask(t: TaskRec): TaskRec {
    if t.status.Blocked? || t.status.Failed? then
      t.(status := Pending, interventions := 0, attempts := 0, roundsSpent := 0,
         roundsWithoutProgress := 0, validation := Unvalidated)
    else t
  }

  function Restarted(p: PlanRec): (q: PlanRec)
    ensures |q.tasks| == |p.tasks|
    ensures forall k :: 0 <= k < |p.tasks| ==> q.tasks[k] == RestartedTask(p.tasks[k])
  {
    PlanRec(seq(|p.tasks|, k requires 0 <= k < |p.tasks| => RestartedTask(p.tasks[k])), 0)
  }

  // ---- the shape every reachable plan keeps ----

  ghost predicate UniqueIds(tasks: seq<TaskRec>) {
    forall i, j :: 0 <= i < j < |tasks| ==> tasks[i].id != tasks[j].id
  }

  /** Every id carries an index between 1 and the number of tasks, so the next index is unused. */
  ghost predicate Numbered(tasks: seq<TaskRec>) {
    forall i :: 0 <= i < |tasks| ==> HasIndexUpTo(tasks[i].id, |tasks|)
  }

  ghost predicate HasIndexUpTo(id: string, n: nat) {
    exists k :: 1 <= k <= n && IsTaskId(id, k)
  }

  ghost predicate NamesEarlier(tasks: seq<TaskRec>, i: nat, id: string) {
    exists j :: 0 <= j < i && j < |tasks| && tasks[j].id == id
  }

  ghost predicate DependenciesEarlier(tasks: seq<TaskRec>) {
    forall i, d :: 0 <= i < |tasks| && d in tasks[i].dependsOn ==> NamesEarlier(tasks, i, d)
  }

  predicate InBudget(t: TaskRec) {
    && !t.status.Blocked?
    && (!t.status.Terminal() ==>
          && t.attempts < MAX_ATTEMPTS_PER_TASK
          && t.interventions < MAX_INTERVENTIONS_PER_TASK
          && t.roundsSpent <= MAX_ROUNDS_PER_TASK)
  }

  ghost predicate OneStarted(tasks: seq<TaskRec>) {
    forall i, j :: 0 <= i < j < |tasks| ==> !(tasks[i].status.InProgress? && tasks[j].status.InProgress?)
  }

  ghost predicate WellFormed(p: PlanRec) {
    && UniqueIds(p.tasks)
    && Numbered(p.tasks)
    && DependenciesEarlier(p.tasks)
    && OneStarted(p.tasks)
    && (forall i :: 0 <= i < |p.tasks| ==> InBudget(p.tasks[i]))
    && p.revisions <= MAX_PLAN_REVISIONS
  }

  /** Terminal tasks, then at most one started task, then pending tasks. */
  ghost predicate Swept(p: PlanRec) {
    forall i, j :: 0 <= i < j < |p.tasks| ==> p.tasks[i].status.Terminal() || p.tasks[j].status.Pending?
  }

  /** No task that reached a terminal status ever has another one. */
  ghost predicate KeepsTerminal(p: PlanRec, q: PlanRec) {
    forall i :: 0 <= i < |p.tasks| && p.tasks[i].status.Terminal() ==>
      HasTask(q, p.tasks[i].id, p.tasks[i].status)
  }

  ghost predicate HasTask(p: PlanRec, id: string, status: Status) {
    exists j :: 0 <= j < |p.tasks| && p.tasks[j].id == id && p.tasks[j].status == status
  }

  /** Every repair is the repair of a task that is none itself. */
  ghost predicate RepairsOriginals(tasks: seq<TaskRec>) {
    forall i :: 0 <= i < |tasks| && tasks[i].isRecovery ==> RepairsAnOriginal(tasks, tasks[i].objective)
  }

  ghost predicate RepairsAnOriginal(tasks: seq<TaskRec>, objective: string) {
    exists j :: 0 <= j < |tasks| && !tasks[j].isRecovery && RepairObjective(tasks[j]) == objective
  }

  ghost predicate KeepsOriginals(p: PlanRec, q: PlanRec) {
    RepairsOriginals(p.tasks) ==> RepairsOriginals(q.tasks)
  }

  // ---- lemmas: nothing is ever stuck ----

  lemma CurrentWorks(p: PlanRec)
    requires Current(p) >= 0
    ensures var t := p.tasks[Current(p)];
      || t.status.InProgress?
      || (t.status.Pending? && forall i :: 0 <= i < |p.tasks| ==> !p.tasks[i].status.InProgress?)
  {
  }

  /** The first unfinished task can always be worked on, so the plan offers a current task exactly
      while work remains. */
  lemma NeverStuck(p: PlanRec)
    requires WellFormed(p)
    ensures Current(p) >= 0 <==> WorkRemains(p)
    ensures !IsStuck(p)
  {
    if WorkRemains(p) {
      var first := FindFirst(p.tasks, (t: TaskRec) => !t.status.Terminal());
      var t := p.tasks[first];
      assert InBudget(t);
      forall d | d in t.dependsOn ensures DependencyMet(p.tasks, d) {
        assert NamesEarlier(p.tasks, first, d);
      }
      assert IsReady(p.tasks, t);
    }
    if Current(p) >= 0 {
      CurrentWorks(p);
    }
  }

  /** A task can start exactly if everything it waits for is a task that completed or failed. */
  lemma ReadyIff(tasks: seq<TaskRec>, t: TaskRec)
    requires UniqueIds(tasks)
    ensures IsReady(tasks, t) <==> forall d :: d in t.dependsOn ==>
      exists k :: 0 <= k < |tasks| && tasks[k].id == d && (tasks[k].status == Completed || tasks[k].status == Failed)
  {
    forall d ensures DependencyMet(tasks, d) <==>
      exists k :: 0 <= k < |tasks| && tasks[k].id == d && (tasks[k].status == Completed || tasks[k].status == Failed)
    {
      var i := IndexOf(tasks, d);
      if k :| 0 <= k < |tasks| && tasks[k].id == d {
        assert k == i;
      }
    }
  }

  /** The current task is the first one that was started; only without one it is the first pending one that
      can start. */
  lemma CurrentIff(p: PlanRec, c: nat)
    requires c < |p.tasks|
    ensures Current(p) == c <==>
      if exists k :: 0 <= k < |p.tasks| && p.tasks[k].status.InProgress?
      then p.tasks[c].status.InProgress? && forall k :: 0 <= k < c ==> !p.tasks[k].status.InProgress?
      else
        && p.tasks[c].status.Pending? && IsReady(p.tasks, p.tasks[c])
        && forall k :: 0 <= k < c ==> !(p.tasks[k].status.Pending? && IsReady(p.tasks, p.tasks[k]))
  {
    hide IsReady;
  }

  /** In a swept plan the current task is the first unfinished one. */
  lemma CurrentIsFirstUnfinished(p: PlanRec)
    requires WellFormed(p) && Swept(p) && Current(p) >= 0
    ensures forall i :: 0 <= i < Current(p) ==> p.tasks[i].status.Terminal()
    ensures forall i :: Current(p) < i < |p.tasks| ==> p.tasks[i].status.Pending?
  {
    CurrentWorks(p);
    var c := Current(p);
    var first := FindFirst(p.tasks, (t: TaskRec) => !t.status.Terminal());
    assert 0 <= first <= c;
    if first < c {
      var t := p.tasks[first];
      assert t.status.Terminal() || p.tasks[c].status.Pending?;
      assert InBudget(t);
      forall d | d in t.dependsOn ensures DependencyMet(p.tasks, d) {
        assert NamesEarlier(p.tasks, first, d);
      }
      assert IsReady(p.tasks, t);
      assert false;
    }
  }

  // ---- lemmas: the shape is kept ----

  /** The same task with other counters, validators or status. */
  predicate SameTask(a: TaskRec, b: TaskRec) {
    b.id == a.id && b.objective == a.objective && b.dependsOn == a.dependsOn && b.isRecovery == a.isRecovery
  }

  lemma WithKeepsShape(p: PlanRec, i: nat, t: TaskRec)
    requires WellFormed(p) && i < |p.tasks|
    requires SameTask(p.tasks[i], t) && InBudget(t)
    requires t.status.InProgress? ==>
      p.tasks[i].status.InProgress? || forall k :: 0 <= k < |p.tasks| ==> !p.tasks[k].status.InProgress?
    requires p.tasks[i].status.Terminal() ==> t.status == p.tasks[i].status
    ensures WellFormed(p.With(i, t)) && KeepsTerminal(p, p.With(i, t)) && KeepsOriginals(p, p.With(i, t))
  {
    var q := p.With(i, t);
    SameOriginals(p, q);
    forall k, d | 0 <= k < |q.tasks| && d in q.tasks[k].dependsOn ensures NamesEarlier(q.tasks, k, d) {
      assert NamesEarlier(p.tasks, k, d);
      var j :| 0 <= j < k && j < |p.tasks| && p.tasks[j].id == d;
      assert q.tasks[j].id == d;
    }
    forall k | 0 <= k < |p.tasks| && p.tasks[k].status.Terminal()
      ensures HasTask(q, p.tasks[k].id, p.tasks[k].status)
    {
      assert q.tasks[k].id == p.tasks[k].id && q.tasks[k].status == p.tasks[k].status;
    }
  }

  /** A started task may take any status that is not blocked. */
  lemma WithKeepsStarted(p: PlanRec, i: nat, t: TaskRec)
    requires WellFormed(p) && i < |p.tasks| && p.tasks[i].status.InProgress?
    requires SameTask(p.tasks[i], t) && InBudget(t)
    ensures WellFormed(p.With(i, t)) && KeepsTerminal(p, p.With(i, t)) && KeepsOriginals(p, p.With(i, t))
    ensures Swept(p) && !t.status.Pending? ==> Swept(p.With(i, t))
    ensures Swept(p) ==> forall k :: i < k < |p.tasks| ==> p.tasks[k].status.Pending?
  {
    WithKeepsShape(p, i, t);
    var q := p.With(i, t);
    if Swept(p) {
      forall a, b | 0 <= a < b < |p.tasks| && !t.status.Pending?
        ensures q.tasks[a].status.Terminal() || q.tasks[b].status.Pending?
      {
        assert p.tasks[a].status.Terminal() || p.tasks[b].status.Pending?;
      }
    }
  }

  lemma SameOriginals(p: PlanRec, q: PlanRec)
    requires |p.tasks| == |q.tasks|
    requires forall k :: 0 <= k < |p.tasks| ==>
      q.tasks[k].objective == p.tasks[k].objective && q.tasks[k].isRecovery == p.tasks[k].isRecovery
    ensures KeepsOriginals(p, q)
  {
    if RepairsOriginals(p.tasks) {
      forall i | 0 <= i < |q.tasks| && q.tasks[i].isRecovery ensures RepairsAnOriginal(q.tasks, q.tasks[i].objective) {
        assert RepairsAnOriginal(p.tasks, p.tasks[i].objective);
        var j :| 0 <= j < |p.tasks| && !p.tasks[j].isRecovery && RepairObjective(p.tasks[j]) == p.tasks[i].objective;
        assert RepairObjective(q.tasks[j]) == RepairObjective(p.tasks[j]);
      }
    }
  }

  lemma NextIndexUnused(tasks: seq<TaskRec>, slug: string)
    requires Numbered(tasks)
    ensures IndexOf(tasks, MakeTaskId(|tasks| + 1, slug)) < 0
  {
    var id := MakeTaskId(|tasks| + 1, slug);
    var j := IndexOf(tasks, id);
    if j >= 0 {
      MakeTaskIdHasIndex(|tasks| + 1, slug);
      assert HasIndexUpTo(tasks[j].id, |tasks|);
      var k :| 1 <= k <= |tasks| && IsTaskId(id, k);
      TaskIdIndexUnique(id, k, |tasks| + 1);
    }
  }

  function IndexBefore(i: nat, k: nat): nat
    requires k != i + 1
  {
    if k <= i then k else k - 1
  }

  function IndexAfter(i: nat, k: nat): nat {
    if k <= i then k else k + 1
  }

  /** `q` is `p` with `repair` directly after task `i` and every wait for `i` turned into a wait for `repair`. */
  ghost predicate Repaired(p: PlanRec, i: nat, repair: TaskRec, q: PlanRec) {
    && i < |p.tasks| && |q.tasks| == |p.tasks| + 1 && q.revisions == p.revisions + 1
    && q.tasks[i + 1] == repair
    && forall k :: 0 <= k < |q.tasks| && k != i + 1 ==>
      q.tasks[k] == RepointTask(p.tasks[IndexBefore(i, k)], p.tasks[i].id, repair.id)
  }

  /** A repair's id is never taken, so an allowed repair is always inserted. */
  lemma RecoverInserts(p: PlanRec, i: nat)
    requires WellFormed(p) && i < |p.tasks| && RepairAllowed(p, p.tasks[i])
    ensures Repaired(p, i, RepairOf(p.tasks[i], |p.tasks| + 1), Recover(p, i))
  {
    hide Slug, Decimal, MakeTaskId, DependenciesEarlier, OneStarted, InBudget, HasIndexUpTo;
    var t, repair := p.tasks[i], RepairOf(p.tasks[i], |p.tasks| + 1);
    NextIndexUnused(p.tasks, Slug(RepairObjective(t), "task" + Decimal(|p.tasks| + 1)));
    assert IndexOf(p.tasks, t.id) == i;
    assert CanInsert(p, t.id, repair.id);
    var q := InsertAfter(p, t.id, repair);
    assert forall k :: 0 <= k < |q.tasks| && k != i + 1 ==> q.tasks[k] == p.tasks[IndexBefore(i, k)];
    assert RepointTask(repair, t.id, repair.id) == repair;
  }

  /** Repairing, told field by field: a task that is no repair and has none yet gets one, while the plan was
      revised less than five times. The repair has the same tools, artifacts and checks, waits for nothing,
      and starts with two of its three interventions spent and a note; all that waited for the task waits
      for the repair, and nothing else changes. */
  lemma RepairInherits(p: PlanRec, i: nat)
    requires WellFormed(p) && i < |p.tasks|
    ensures var t, q := p.tasks[i], Recover(p, i);
      if t.isRecovery || p.revisions >= 5 || exists k :: 0 <= k < |p.tasks| && p.tasks[k].objective == "Recover: " + t.objective
      then q == p
      else
        && |q.tasks| == |p.tasks| + 1 && q.revisions == p.revisions + 1
        && var u := q.tasks[i + 1];
          && u.objective == "Recover: " + t.objective && u.isRecovery && u.status.Pending? && u.validation.Unvalidated?
          && u.requiredTools == t.requiredTools && u.expectedArtifacts == t.expectedArtifacts && u.validators == t.validators
          && u.dependsOn == [] && u.interventions == 2 && u.notes == 1
          && u.attempts == u.roundsSpent == u.roundsWithoutProgress == u.reasoningChars == 0
          && forall k :: 0 <= k < |p.tasks| ==> WaitsInstead(p.tasks[k], t.id, u.id, q.tasks[if k <= i then k else k + 1])
  {
    hide MakeTaskId, Slug, Decimal, UniqueIds, Numbered, DependenciesEarlier, OneStarted;
    if RepairAllowed(p, p.tasks[i]) {
      RecoverInserts(p, i);
      var q := Recover(p, i);
      hide Recover;
      forall k | 0 <= k < |p.tasks| ensures WaitsInstead(p.tasks[k], p.tasks[i].id, q.tasks[i + 1].id, q.tasks[if k <= i then k else k + 1]) {
        assert InBudget(p.tasks[k]);
        assert IndexBefore(i, if k <= i then k else k + 1) == k;
      }
    }
  }

  /** `u` is `t`, except that it waits for `newId` wherever `t` waits for `oldId`. */
  ghost predicate WaitsInstead(t: TaskRec, oldId: string, newId: string, u: TaskRec) {
    && u == t.(dependsOn := u.dependsOn) && |u.dependsOn| == |t.dependsOn|
    && forall d :: 0 <= d < |t.dependsOn| ==> u.dependsOn[d] == if t.dependsOn[d] == oldId then newId else t.dependsOn[d]
  }

  lemma OriginalMoves(p: PlanRec, i: nat, repair: TaskRec, q: PlanRec, j: nat, objective: string)
    requires Repaired(p, i, repair, q) && j < |p.tasks| && !p.tasks[j].isRecovery && RepairObjective(p.tasks[j]) == objective
    ensures RepairsAnOriginal(q.tasks, objective)
  {
    var x := IndexAfter(i, j);
    assert IndexBefore(i, x) == j && q.tasks[x] == RepointTask(p.tasks[j], p.tasks[i].id, repair.id);
    assert RepairObjective(q.tasks[x]) == RepairObjective(p.tasks[j]);
  }

  /** No repair is ever repaired. */
  lemma RepairedKeepsOriginals(p: PlanRec, i: nat, repair: TaskRec, q: PlanRec)
    requires Repaired(p, i, repair, q) && !p.tasks[i].isRecovery && repair.objective == RepairObjective(p.tasks[i])
    ensures KeepsOriginals(p, q)
  {
    hide RepairObjective;
    if RepairsOriginals(p.tasks) {
      forall k | 0 <= k < |q.tasks| && q.tasks[k].isRecovery ensures RepairsAnOriginal(q.tasks, q.tasks[k].objective) {
        if k == i + 1 {
          OriginalMoves(p, i, repair, q, i, repair.objective);
        } else {
          var o := p.tasks[IndexBefore(i, k)];
          assert q.tasks[k].objective == o.objective && o.isRecovery;
          assert RepairsAnOriginal(p.tasks, o.objective);
          var j :| 0 <= j < |p.tasks| && !p.tasks[j].isRecovery && RepairObjective(p.tasks[j]) == o.objective;
          OriginalMoves(p, i, repair, q, j, o.objective);
        }
      }
    }
  }

  lemma RepairedKeepsIds(p: PlanRec, i: nat, repair: TaskRec, q: PlanRec)
    requires UniqueIds(p.tasks) && Numbered(p.tasks) && Repaired(p, i, repair, q)
    requires IsTaskId(repair.id, |p.tasks| + 1) && IndexOf(p.tasks, repair.id) < 0
    ensures UniqueIds(q.tasks) && Numbered(q.tasks)
  {
    forall k | 0 <= k < |q.tasks| ensures HasIndexUpTo(q.tasks[k].id, |q.tasks|) {
      if k != i + 1 {
        var o := p.tasks[IndexBefore(i, k)];
        assert HasIndexUpTo(o.id, |p.tasks|);
        assert q.tasks[k].id == o.id;
      }
    }
    forall a, b | 0 <= a < b < |q.tasks| ensures q.tasks[a].id != q.tasks[b].id {
      if a != i + 1 { assert q.tasks[a].id == p.tasks[IndexBefore(i, a)].id; }
      if b != i + 1 { assert q.tasks[b].id == p.tasks[IndexBefore(i, b)].id; }
    }
  }

  lemma RepairedKeepsDependencies(p: PlanRec, i: nat, repair: TaskRec, q: PlanRec)
    requires UniqueIds(p.tasks) && DependenciesEarlier(p.tasks) && Repaired(p, i, repair, q)
    requires repair.dependsOn == []
    ensures DependenciesEarlier(q.tasks)
  {
    forall k, d | 0 <= k < |q.tasks| && d in q.tasks[k].dependsOn ensures NamesEarlier(q.tasks, k, d) {
      if k != i + 1 {
        var o := p.tasks[IndexBefore(i, k)];
        var x :| 0 <= x < |q.tasks[k].dependsOn| && q.tasks[k].dependsOn[x] == d;
        var was := o.dependsOn[x];
        assert NamesEarlier(p.tasks, IndexBefore(i, k), was);
        var j :| 0 <= j < IndexBefore(i, k) && j < |p.tasks| && p.tasks[j].id == was;
        if j == i {
          assert q.tasks[i + 1].id == d;
        } else {
          assert q.tasks[IndexAfter(i, j)].id == d;
        }
      }
    }
  }

  lemma RepairedKeepsStatuses(p: PlanRec, i: nat, repair: TaskRec, q: PlanRec)
    requires Repaired(p, i, repair, q) && repair.status.Pending? && InBudget(repair)
    requires OneStarted(p.tasks) && forall k :: 0 <= k < |p.tasks| ==> InBudget(p.tasks[k])
    ensures forall k :: 0 <= k < |q.tasks| && k != i + 1 ==> q.tasks[k].status == p.tasks[IndexBefore(i, k)].status
    ensures OneStarted(q.tasks) && forall k :: 0 <= k < |q.tasks| ==> InBudget(q.tasks[k])
    ensures KeepsTerminal(p, q)
  {
    forall k | 0 <= k < |q.tasks| && k != i + 1
      ensures q.tasks[k].status == p.tasks[IndexBefore(i, k)].status && InBudget(q.tasks[k])
    {
      assert InBudget(p.tasks[IndexBefore(i, k)]);
    }
    forall k | 0 <= k < |p.tasks| && p.tasks[k].status.Terminal()
      ensures HasTask(q, p.tasks[k].id, p.tasks[k].status)
    {
      var t := q.tasks[IndexAfter(i, k)];
      assert t.id == p.tasks[k].id && t.status == p.tasks[k].status;
    }
  }

  lemma RepairedKeepsSweep(p: PlanRec, i: nat, repair: TaskRec, q: PlanRec)
    requires Repaired(p, i, repair, q) && repair.status.Pending? && Swept(p)
    requires forall k :: 0 <= k < |q.tasks| && k != i + 1 ==> q.tasks[k].status == p.tasks[IndexBefore(i, k)].status
    requires p.tasks[i].status.Terminal() && forall k :: i < k < |p.tasks| ==> p.tasks[k].status.Pending?
    ensures Swept(q)
  {
    forall k | 0 <= k < |q.tasks| ensures (if k <= i then q.tasks[k].status.Terminal() else q.tasks[k].status.Pending?) {
      if k < i {
        assert q.tasks[k].status == p.tasks[k].status && !p.tasks[i].status.Pending?;
      }
    }
  }

  lemma RecoverKeepsShape(p: PlanRec, i: nat)
    requires WellFormed(p) && i < |p.tasks|
    ensures var q := Recover(p, i);
      && WellFormed(q) && KeepsTerminal(p, q)
      && |q.tasks| - q.revisions == |p.tasks| - p.revisions
      && |q.tasks| >= |p.tasks|
      && q.tasks[i].id == p.tasks[i].id && q.tasks[i].status == p.tasks[i].status
      && KeepsOriginals(p, q)
    ensures var q := Recover(p, i);
      Swept(p) && p.tasks[i].status.Terminal() && (forall k :: i < k < |p.tasks| ==> p.tasks[k].status.Pending?)
      ==> Swept(q)
  {
    var t := p.tasks[i];
    if RepairAllowed(p, t) {
      var q, repair := Recover(p, i), RepairOf(t, |p.tasks| + 1);
      var slug := Slug(RepairObjective(t), "task" + Decimal(|p.tasks| + 1));
      RecoverInserts(p, i);
      MakeTaskIdHasIndex(|p.tasks| + 1, slug);
      NextIndexUnused(p.tasks, slug);
      RepairedKeepsIds(p, i, repair, q);
      RepairedKeepsDependencies(p, i, repair, q);
      RepairedKeepsStatuses(p, i, repair, q);
      RepairedKeepsOriginals(p, i, repair, q);
      if Swept(p) && t.status.Terminal() && (forall k :: i < k < |p.tasks| ==> p.tasks[k].status.Pending?) {
        RepairedKeepsSweep(p, i, repair, q);
      }
      assert IndexBefore(i, i) == i;
    } else {
      KeepsTerminalReflexive(p);
    }
  }

  lemma KeepsTerminalTransitive(p: PlanRec, q: PlanRec, r: PlanRec)
    requires KeepsTerminal(p, q) && KeepsTerminal(q, r)
    ensures KeepsTerminal(p, r)
  {
    forall i | 0 <= i < |p.tasks| && p.tasks[i].status.Terminal()
      ensures HasTask(r, p.tasks[i].id, p.tasks[i].status)
    {
      var j :| 0 <= j < |q.tasks| && q.tasks[j].id == p.tasks[i].id && q.tasks[j].status == p.tasks[i].status;
      assert HasTask(r, q.tasks[j].id, q.tasks[j].status);
    }
  }

  lemma KeepsTerminalReflexive(p: PlanRec)
    ensures KeepsTerminal(p, p)
  {
    forall i | 0 <= i < |p.tasks| && p.tasks[i].status.Terminal()
      ensures HasTask(p, p.tasks[i].id, p.tasks[i].status)
    {
    }
  }
}
