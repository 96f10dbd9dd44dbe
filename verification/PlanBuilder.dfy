/** How a plan is first made: a proposal is cleaned up and given a commitment task if it lacks one, and
    its entries (or a template's) become tasks whose ids and dependencies are never the model's own. */
module PlanBuilder {
  import opened Ids
  import opened PlanModel
  import opened ExecutionPlanState
  import JobModel

  const MIN_TASKS: nat := 3
  const MAX_TASKS: nat := 12
  const COMMIT_TOOL: string := "commit_direction"

  datatype Entry = Entry(
    objective: string, requiredTools: seq<string>, expectedArtifacts: seq<string>, dependsOnPrevious: bool)

  /** One element of the proposal's task list after its strings were cleaned: something that is not an
      object, or an entry whose objective may be empty. */
  datatype RawTask = NotAnObject | Raw(entry: Entry) {
    predicate Usable() { Raw? && entry.objective != [] }
  }

  type Inference = TaskRec -> seq<string>

  datatype Option<T> = None | Some(value: T)

  // ---- entries ----

  function UsableEntries(raws: seq<RawTask>): seq<Entry> {
    if raws == [] then []
    else
      var r := raws[|raws| - 1];
      UsableEntries(raws[..|raws| - 1]) + if r.Usable() then [r.entry] else []
  }

  lemma {:induction false} UsableEntriesPrefix(raws: seq<RawTask>, k: nat)
    requires k <= |raws|
    ensures UsableEntries(raws[..k]) <= UsableEntries(raws)
  {
    if k < |raws| {
      UsableEntriesPrefix(raws[..|raws| - 1], k);
      assert raws[..|raws| - 1][..k] == raws[..k];
    } else {
      assert raws[..k] == raws;
    }
  }

  /** Every object with an objective is used, as it is and in its place; nothing else is. */
  lemma {:induction false} UsableEntriesSplit(before: seq<RawTask>, r: RawTask, after: seq<RawTask>)
    ensures UsableEntries([]) == []
    ensures UsableEntries(before + [r] + after) == UsableEntries(before)
      + (match r { case NotAnObject => [] case Raw(e) => if e.objective == "" then [] else [e] })
      + UsableEntries(after)
  {
    var raws := before + [r] + after;
    if after == [] {
      assert raws[..|raws| - 1] == before;
      assert forall u: seq<Entry> :: u + [] == u;
    } else {
      var init := after[..|after| - 1];
      assert raws[..|raws| - 1] == before + [r] + init;
      UsableEntriesSplit(before, r, init);
      hide UsableEntries;
      UsableEntriesEnd(raws);
      UsableEntriesEnd(after);
    }
  }

  lemma UsableEntriesEnd(raws: seq<RawTask>)
    requires raws != []
    ensures UsableEntries(raws) == UsableEntries(raws[..|raws| - 1])
      + if raws[|raws| - 1].Usable() then [raws[|raws| - 1].entry] else []
  {
  }

  /** The first twelve of some entries. */
  function Clamped(entries: seq<Entry>): seq<Entry> {
    if |entries| > MAX_TASKS then entries[..MAX_TASKS] else entries
  }

  /** The usable entries in order, but no more than the first twelve. */
  method CollectEntries(raws: seq<RawTask>) returns (entries: seq<Entry>)
    ensures entries == Clamped(UsableEntries(raws))
  {
    entries := [];
    for k := 0 to |raws|
      invariant entries == UsableEntries(raws[..k]) && |entries| < MAX_TASKS
    {
      assert raws[..k + 1][..k] == raws[..k];
      if !raws[k].Usable() { continue; }
      entries := entries + [raws[k].entry];
      if |entries| >= MAX_TASKS {
        UsableEntriesPrefix(raws, k + 1);
        return;
      }
    }
    assert raws[..|raws|] == raws;
  }

  // ---- the commitment task ----

  predicate Substantial(intent: JobModel.Intent) {
    intent.Create? || intent.Modify?
  }

  predicate Contains(text: string, part: string) {
    exists i :: 0 <= i <= |text| && part <= text[i..]
  }

  function Lowered(text: string): string {
    seq(|text|, i requires 0 <= i < |text| => Lower(text[i]))
  }

  predicate Commits(e: Entry) {
    COMMIT_TOOL in e.requiredTools
  }

  predicate Authors(e: Entry) {
    e.expectedArtifacts != []
  }

  /** The commitment task in everything but the tool. */
  predicate SoundsCommitting(e: Entry) {
    !Authors(e) && ("commit" <= Lowered(e.objective) || Contains(Lowered(e.objective), "commit to"))
  }

  const Commitment: Entry :=
    Entry("Commit to one direction and state it in a few sentences", [COMMIT_TOOL], [], true)

  function FirstCommit(entries: seq<Entry>): int {
    FindFirst(entries, (e: Entry) => Commits(e))
  }

  function FirstSounding(entries: seq<Entry>): int {
    FindFirst(entries, (e: Entry) => SoundsCommitting(e))
  }

  function FirstAuthor(entries: seq<Entry>): (i: int)
    ensures -1 <= i < |entries|
    ensures i >= 0 ==> Authors(entries[i])
    ensures forall j :: 0 <= j < (if i >= 0 then i else |entries|) ==> !Authors(entries[j])
  {
    FindFirst(entries, (e: Entry) => Authors(e))
  }

  function EnsureCommitment(entries: seq<Entry>, intent: JobModel.Intent): seq<Entry> {
    if !Substantial(intent) || FirstCommit(entries) >= 0 then entries
    else if FirstSounding(entries) >= 0 then
      var i := FirstSounding(entries);
      entries[i := entries[i].(requiredTools := [COMMIT_TOOL])]
    else
      var a := FirstAuthor(entries);
      var at := if a >= 0 then a else if |entries| >= 1 then 1 else 0;
      Clamped(entries[..at] + [Commitment] + entries[at..])
  }

  /** Some entry commits, and nothing is authored before it. */
  ghost predicate CommitsBeforeAuthoring(entries: seq<Entry>) {
    exists i :: 0 <= i < |entries| && Commits(entries[i]) && forall j :: 0 <= j < i ==> !Authors(entries[j])
  }

  /** A substantial plan always has a commitment task, the ceiling notwithstanding. */
  lemma CommitmentPresent(entries: seq<Entry>, intent: JobModel.Intent)
    requires |entries| <= MAX_TASKS
    ensures var r := EnsureCommitment(entries, intent);
      |r| <= MAX_TASKS && (Substantial(intent) ==> exists i :: 0 <= i < |r| && Commits(r[i]))
  {
    if Substantial(intent) {
      var r := EnsureCommitment(entries, intent);
      var c, s, a := FirstCommit(entries), FirstSounding(entries), FirstAuthor(entries);
      assert Commits(r[if c >= 0 then c else if s >= 0 then s else if a >= 0 then a else if |entries| >= 1 then 1 else 0]);
    }
  }

  /** It comes before anything is authored exactly when the proposal's own commitment, by tool or else by
      wording, was not too late: one that comes after an authoring entry is kept where it is. */
  lemma CommitmentComesFirst(entries: seq<Entry>, intent: JobModel.Intent)
    requires |entries| <= MAX_TASKS && Substantial(intent)
    ensures var c := if FirstCommit(entries) >= 0 then FirstCommit(entries) else FirstSounding(entries);
      CommitsBeforeAuthoring(EnsureCommitment(entries, intent)) <==>
        c < 0 || forall j :: 0 <= j < c ==> !Authors(entries[j])
  {
    hide SoundsCommitting;
    var r := EnsureCommitment(entries, intent);
    var c := if FirstCommit(entries) >= 0 then FirstCommit(entries) else FirstSounding(entries);
    if c >= 0 {
      assert Commits(r[c]) && forall j :: 0 <= j < c ==> !Commits(r[j]);
      assert forall j :: 0 <= j < |entries| ==> Authors(r[j]) == Authors(entries[j]);
    } else {
      var a := FirstAuthor(entries);
      var at := if a >= 0 then a else if |entries| >= 1 then 1 else 0;
      assert Commits(r[at]);
      assert forall j :: 0 <= j < at ==> r[j] == entries[j] && !Authors(r[j]);
    }
  }

  // ---- what the proposal asked for is kept ----

  lemma LoweredKeepsText(text: string)
    ensures |Lowered(text)| == |text|
    ensures forall i :: 0 <= i < |text| ==>
      Lowered(text)[i] as int == text[i] as int + if 'A' <= text[i] <= 'Z' then 32 else 0
  {
  }

  lemma ContainsIff(text: string, part: string)
    ensures Contains(text, part) <==> exists before: string, after: string :: text == before + part + after
  {
    if i :| 0 <= i <= |text| && part <= text[i..] {
      assert text == text[..i] + part + text[i + |part|..];
    }
    if before: string, after: string :| text == before + part + after {
      assert text[|before|..] == part + after;
      assert part <= text[|before|..];
    }
  }

  ghost predicate StartsOrContains(text: string) {
    || (exists after: string :: text == "commit" + after)
    || (exists before: string, after: string :: text == before + "commit to" + after)
  }

  /** An entry without artifacts sounds like the commitment task if, in lower case, its objective begins with
      "commit" or has "commit to" in it. */
  lemma SoundsCommittingIff(e: Entry)
    ensures SoundsCommitting(e) <==> e.expectedArtifacts == [] && StartsOrContains(Lowered(e.objective))
  {
    var text := Lowered(e.objective);
    ContainsIff(text, "commit to");
    if "commit" <= text {
      assert text == "commit" + text[|"commit"|..];
    }
    if after: string :| text == "commit" + after {
      assert "commit" <= text;
    }
  }

  ghost predicate LacksCommitment(entries: seq<Entry>, intent: JobModel.Intent) {
    (intent.Create? || intent.Modify?) && forall e :: e in entries ==> "commit_direction" !in e.requiredTools
  }

  /** `r` is `entries` with the required tools of its first entry that sounds committing replaced. */
  ghost predicate AdoptedAt(entries: seq<Entry>, i: nat, r: seq<Entry>) {
    && i < |entries| == |r| && SoundsCommitting(entries[i]) && (forall j :: 0 <= j < i ==> !SoundsCommitting(entries[j]))
    && r[i].requiredTools == ["commit_direction"] && r[i].objective == entries[i].objective
    && r[i].expectedArtifacts == entries[i].expectedArtifacts && r[i].dependsOnPrevious == entries[i].dependsOnPrevious
    && r[..i] == entries[..i] && r[i + 1..] == entries[i + 1..]
  }

  /** `r` is `entries` with a commitment task put before the first entry with artifacts, or in the second place
      if there is none; the last of twelve entries had to make room. */
  ghost predicate InsertedAt(entries: seq<Entry>, at: nat, r: seq<Entry>) {
    && at < |r| && at <= |entries|
    && r[at].requiredTools == ["commit_direction"] && r[at].expectedArtifacts == [] && r[at].dependsOnPrevious
    && (r[..at] + r[at + 1..] == if |entries| == 12 then entries[..11] else entries)
    && (forall j :: 0 <= j < at ==> entries[j].expectedArtifacts == [])
    && ((at < |entries| && entries[at].expectedArtifacts != [])
        || ((forall j :: 0 <= j < |entries| ==> entries[j].expectedArtifacts == []) && at == if entries == [] then 0 else 1))
  }

  lemma CommitmentInserted(entries: seq<Entry>, at: nat)
    requires |entries| <= 12 && at <= |entries| && at < 12
    ensures var r := Clamped(entries[..at] + [Commitment] + entries[at..]);
      && at < |r| && r[at] == Commitment
      && r[..at] + r[at + 1..] == if |entries| == 12 then entries[..11] else entries
  {
    var all := entries[..at] + [Commitment] + entries[at..];
    var r := Clamped(all);
    assert r == if |entries| == 12 then all[..12] else all;
    assert r[..at] == entries[..at];
    assert r[at + 1..] == if |entries| == 12 then entries[at..11] else entries[at..];
  }

  lemma CommitmentMade(entries: seq<Entry>, intent: JobModel.Intent, at: nat)
    requires LacksCommitment(entries, intent) && forall e :: e in entries ==> !SoundsCommitting(e)
    requires at == if FirstAuthor(entries) >= 0 then FirstAuthor(entries) else if |entries| >= 1 then 1 else 0
    ensures EnsureCommitment(entries, intent) == Clamped(entries[..at] + [Commitment] + entries[at..])
  {
    hide SoundsCommitting, Clamped, FirstAuthor;
  }

  lemma CommitmentPlaced(entries: seq<Entry>, intent: JobModel.Intent)
    requires |entries| <= 12 && LacksCommitment(entries, intent) && forall e :: e in entries ==> !SoundsCommitting(e)
    ensures exists at :: InsertedAt(entries, at, EnsureCommitment(entries, intent))
  {
    hide EnsureCommitment, SoundsCommitting, Clamped;
    var a := FirstAuthor(entries);
    var at := if a >= 0 then a else if |entries| >= 1 then 1 else 0;
    CommitmentMade(entries, intent, at);
    CommitmentInserted(entries, at);
    assert InsertedAt(entries, at, EnsureCommitment(entries, intent));
  }

  /** Securing a commitment costs the proposal nothing but the last of twelve entries: it changes nothing if an
      entry commits or nothing substantial is asked for, gives the tool to the first entry that sounds like the
      commitment task, and only without one inserts a task of its own. */
  lemma CommitmentKeepsEntries(entries: seq<Entry>, intent: JobModel.Intent)
    requires |entries| <= 12
    ensures var r := EnsureCommitment(entries, intent);
      if !LacksCommitment(entries, intent) then r == entries
      else if exists e :: e in entries && SoundsCommitting(e) then exists i :: AdoptedAt(entries, i, r)
      else exists at :: InsertedAt(entries, at, r)
  {
    hide SoundsCommitting, Clamped, FirstAuthor, InsertedAt;
    if !LacksCommitment(entries, intent) {
    } else if exists e :: e in entries && SoundsCommitting(e) {
      assert AdoptedAt(entries, FirstSounding(entries), EnsureCommitment(entries, intent));
    } else {
      CommitmentPlaced(entries, intent);
    }
  }

  // ---- entries to tasks ----

  function TaskIdAt(entries: seq<Entry>, i: nat): string
    requires i < |entries|
  {
    MakeTaskId(i + 1, Slug(entries[i].objective, "task" + Decimal(i + 1)))
  }

  function TaskAt(entries: seq<Entry>, infer: Inference, i: nat): TaskRec
    requires i < |entries|
  {
    var dependsOn := if entries[i].dependsOnPrevious && i > 0 then [TaskIdAt(entries, i - 1)] else [];
    var t := FreshTask(entries[i].objective, i + 1, dependsOn, entries[i].requiredTools, entries[i].expectedArtifacts, []);
    t.(validators := infer(t))
  }

  function Built(entries: seq<Entry>, infer: Inference): (tasks: seq<TaskRec>)
    ensures |tasks| == |entries| && forall i :: 0 <= i < |entries| ==> tasks[i] == TaskAt(entries, infer, i)
  {
    seq(|entries|, i requires 0 <= i < |entries| => TaskAt(entries, infer, i))
  }

  /** One task, waiting for the last one made so far if its entry says so. */
  method TaskFromEntry(entries: seq<Entry>, infer: Inference, i: nat, tasks: seq<Task>) returns (task: Task)
    requires |tasks| == i < |entries| && (i > 0 ==> tasks[i - 1].Rec() == TaskAt(entries, infer, i - 1))
    ensures fresh(task) && task.Rec() == TaskAt(entries, infer, i)
  {
    hide MakeTaskId, Slug, Decimal;
    var dependsOn := if entries[i].dependsOnPrevious && tasks != [] then [tasks[|tasks| - 1].id] else [];
    if i > 0 {
      assert tasks[i - 1].id == tasks[i - 1].Rec().id == TaskIdAt(entries, i - 1);
    }
    task := new Task.Make(entries[i].objective, i + 1, dependsOn, entries[i].requiredTools, entries[i].expectedArtifacts, []);
    task.validators := infer(task.Rec());
  }

  method TasksFromEntries(entries: seq<Entry>, infer: Inference) returns (tasks: seq<Task>)
    ensures fresh(tasks) && Recs(tasks) == Built(entries, infer)
  {
    hide TaskAt;
    tasks := [];
    for i := 0 to |entries|
      invariant |tasks| == i && fresh(tasks)
      invariant forall k :: 0 <= k < i ==> tasks[k].Rec() == TaskAt(entries, infer, k)
    {
      var task := TaskFromEntry(entries, infer, i, tasks);
      tasks := tasks + [task];
    }
    assert Recs(tasks) == Built(entries, infer);
  }

  /** A task is what its entry says and nothing more: it waits for the task before it if the entry says so, it
      is checked as inferred, and nothing was done on it yet. */
  lemma TaskOfEntry(entries: seq<Entry>, infer: Inference, i: nat)
    requires i < |entries|
    ensures var tasks := Built(entries, infer); var t, e := tasks[i], entries[i];
      && t.objective == e.objective && t.requiredTools == e.requiredTools && t.expectedArtifacts == e.expectedArtifacts
      && t.dependsOn == (if e.dependsOnPrevious && i > 0 then [tasks[i - 1].id] else [])
      && t.validators == infer(t.(validators := []))
      && t.status.Pending? && t.validation.Unvalidated? && !t.isRecovery
      && t.attempts == t.interventions == t.roundsSpent == t.roundsWithoutProgress == t.reasoningChars == t.notes == 0
  {
    hide MakeTaskId, Slug, Decimal;
  }

  lemma BuiltIds(entries: seq<Entry>, infer: Inference)
    ensures var tasks := Built(entries, infer); UniqueIds(tasks) && Numbered(tasks)
  {
    var tasks := Built(entries, infer);
    forall i | 0 <= i < |tasks| ensures IsTaskId(tasks[i].id, i + 1) {
      MakeTaskIdHasIndex(i + 1, Slug(entries[i].objective, "task" + Decimal(i + 1)));
    }
    hide MakeTaskId, Slug, Decimal, IsTaskId, TaskAt;
    forall i, j | 0 <= i < j < |tasks| ensures tasks[i].id != tasks[j].id {
      if tasks[i].id == tasks[j].id {
        TaskIdIndexUnique(tasks[i].id, i + 1, j + 1);
      }
    }
    assert forall i :: 0 <= i < |tasks| ==> HasIndexUpTo(tasks[i].id, |tasks|);
  }

  lemma BuiltDependencies(entries: seq<Entry>, infer: Inference)
    ensures DependenciesEarlier(Built(entries, infer))
  {
    hide MakeTaskId, Slug, Decimal;
    var tasks := Built(entries, infer);
    forall i, d | 0 <= i < |tasks| && d in tasks[i].dependsOn ensures NamesEarlier(tasks, i, d) {
      assert i > 0 && d == TaskIdAt(entries, i - 1) == tasks[i - 1].id;
    }
  }

  /** Whatever the entries say, the tasks made from them form a plan of the shape every controller run
      keeps: unique indexed ids, dependencies on earlier tasks only, nothing started or spent. */
  lemma BuiltIsWellFormed(entries: seq<Entry>, infer: Inference)
    ensures var p := PlanRec(Built(entries, infer), 0); WellFormed(p) && Swept(p) && RepairsOriginals(p.tasks)
    ensures forall i :: 0 <= i < |entries| ==> Built(entries, infer)[i].status.Pending?
  {
    BuiltIds(entries, infer);
    BuiltDependencies(entries, infer);
    hide UniqueIds, Numbered, DependenciesEarlier, MakeTaskId, Slug, Decimal;
  }

  /** It begins with its first task, on which nothing was spent. */
  lemma BuiltBegins(entries: seq<Entry>, infer: Inference)
    requires entries != []
    ensures var p := PlanRec(Built(entries, infer), 0); var t := p.tasks[0];
      && Current(p) == 0 && t.status.Pending? && !t.isRecovery && t.interventions == 0
      && t.roundsSpent == t.roundsWithoutProgress == t.reasoningChars == 0
  {
    hide MakeTaskId, Slug, Decimal;
    var p := PlanRec(Built(entries, infer), 0);
    assert p.tasks[0].dependsOn == [];
    assert forall k :: 0 <= k < |p.tasks| ==> p.tasks[k].status.Pending?;
  }

  /** A template is a strictly sequential plan. */
  method BuildTasks(specs: seq<Entry>, infer: Inference) returns (tasks: seq<Task>)
    ensures fresh(tasks) && Recs(tasks) == Built(Chained(specs), infer)
  {
    tasks := TasksFromEntries(Chained(specs), infer);
  }

  function Chained(specs: seq<Entry>): (entries: seq<Entry>)
    ensures |entries| == |specs| && forall i :: 0 <= i < |specs| ==> entries[i] == specs[i].(dependsOnPrevious := true)
  {
    seq(|specs|, i requires 0 <= i < |specs| => specs[i].(dependsOnPrevious := true))
  }

  /** In a sequential plan a task can start exactly when the one before it is finished. */
  lemma ChainedIsSequential(specs: seq<Entry>, infer: Inference, p: PlanRec, i: nat)
    requires |p.tasks| == |specs| && i < |specs| && UniqueIds(p.tasks)
    requires forall k :: 0 <= k < |specs| ==>
      var t := TaskAt(Chained(specs), infer, k); p.tasks[k].id == t.id && p.tasks[k].dependsOn == t.dependsOn
    ensures IsReady(p.tasks, p.tasks[i]) <==> i == 0 || p.tasks[i - 1].status.Terminal()
  {
    hide MakeTaskId, Slug, Decimal;
    if i > 0 {
      var previous := p.tasks[i - 1].id;
      assert p.tasks[i].dependsOn == [previous];
      assert previous in p.tasks[i].dependsOn;
      assert IndexOf(p.tasks, previous) == i - 1;
    }
  }

  /** The entries a proposal's plan is made of. */
  function Accepted(raws: seq<RawTask>, intent: JobModel.Intent): seq<Entry> {
    EnsureCommitment(Clamped(UsableEntries(raws)), intent)
  }

  predicate TooSmall(entries: seq<Entry>, intent: JobModel.Intent) {
    |entries| < if Substantial(intent) then MIN_TASKS else 1
  }

  /** `None` means the deterministic plan is used instead. */
  method PlanFromProposal(raws: seq<RawTask>, intent: JobModel.Intent, infer: Inference) returns (r: Option<seq<Task>>)
    ensures r.None? <==> TooSmall(Accepted(raws, intent), intent)
    ensures r.Some? ==> fresh(r.value) && Recs(r.value) == Built(Accepted(raws, intent), infer)
  {
    hide MakeTaskId, Slug, Decimal, FreshTask, EnsureCommitment;
    var collected := CollectEntries(raws);
    var entries := EnsureCommitment(collected, intent);
    if |entries| < MIN_TASKS && Substantial(intent) { return None; }
    if entries == [] { return None; }
    var tasks := TasksFromEntries(entries, infer);
    return Some(tasks);
  }

  /** What is accepted is a plan of the shape every controller run keeps, of at most twelve tasks, and a
      substantial one commits to a direction. */
  lemma AcceptedPlans(raws: seq<RawTask>, intent: JobModel.Intent, infer: Inference)
    ensures var tasks := Built(Accepted(raws, intent), infer);
      && WellFormed(PlanRec(tasks, 0)) && Swept(PlanRec(tasks, 0)) && |tasks| <= MAX_TASKS
      && (Substantial(intent) ==> exists t :: t in tasks && COMMIT_TOOL in t.requiredTools)
  {
    var collected := Clamped(UsableEntries(raws));
    hide MakeTaskId, Slug, Decimal, FreshTask, WellFormed, Swept, UsableEntries, SoundsCommitting;
    CommitmentPresent(collected, intent);
    BuiltIsWellFormed(Accepted(raws, intent), infer);
    if Substantial(intent) {
      BuiltCommits(Accepted(raws, intent), infer);
    }
  }

  /** A proposal is refused for being too small exactly if it has no usable entry, or something substantial is
      asked for and it has only one, or only two with a commitment among them: an inserted one counts. */
  lemma TooSmallIff(raws: seq<RawTask>, intent: JobModel.Intent)
    ensures var entries := UsableEntries(raws);
      TooSmall(Accepted(raws, intent), intent) <==>
        || entries == []
        || ((intent.Create? || intent.Modify?)
            && (|entries| == 1
                || (|entries| == 2 && exists e :: e in entries && ("commit_direction" in e.requiredTools || SoundsCommitting(e)))))
  {
    hide UsableEntries, SoundsCommitting;
    var entries := UsableEntries(raws);
    if |entries| <= 2 && Substantial(intent) {
      assert FirstCommit(entries) >= 0 || FirstSounding(entries) >= 0 <==>
        exists e :: e in entries && ("commit_direction" in e.requiredTools || SoundsCommitting(e));
    }
  }

  /** Task `i`, or past `at` task `i + 1`, does what the first eleven entries ask for, each with its own tools
      unless it became the commitment task. */
  ghost predicate KeptAround(entries: seq<Entry>, at: nat, tasks: seq<TaskRec>) {
    forall i :: 0 <= i < |entries| && i < 11 ==>
      var k := if i < at then i else i + 1;
      && k < |tasks| && tasks[k].objective == entries[i].objective && tasks[k].expectedArtifacts == entries[i].expectedArtifacts
      && (tasks[k].requiredTools == entries[i].requiredTools || tasks[k].requiredTools == ["commit_direction"])
  }

  lemma InsertedKeeps(entries: seq<Entry>, at: nat, r: seq<Entry>)
    requires |entries| <= 12 && InsertedAt(entries, at, r)
    ensures |r| <= |entries| + 1
    ensures forall i :: 0 <= i < |entries| && i < 11 ==> r[if i < at then i else i + 1] == entries[i]
  {
    var rest := r[..at] + r[at + 1..];
    forall i | 0 <= i < |entries| && i < 11 ensures r[if i < at then i else i + 1] == entries[i] {
      assert rest[i] == entries[i];
    }
  }

  /** The same of entries that become tasks. */
  ghost predicate EntriesAround(entries: seq<Entry>, at: nat, r: seq<Entry>) {
    forall i :: 0 <= i < |entries| && i < 11 ==>
      var k := if i < at then i else i + 1;
      && k < |r| && r[k].objective == entries[i].objective && r[k].expectedArtifacts == entries[i].expectedArtifacts
      && (r[k].requiredTools == entries[i].requiredTools || r[k].requiredTools == ["commit_direction"])
  }

  lemma AdoptedKeeps(entries: seq<Entry>, i: nat, r: seq<Entry>)
    requires AdoptedAt(entries, i, r)
    ensures EntriesAround(entries, |entries|, r)
  {
    hide SoundsCommitting;
    assert forall k :: 0 <= k < i ==> r[k] == r[..i][k] == entries[..i][k] == entries[k];
    assert forall k :: i < k < |r| ==> r[k] == r[i + 1..][k - i - 1] == entries[i + 1..][k - i - 1] == entries[k];
  }

  lemma EntriesKept(entries: seq<Entry>, intent: JobModel.Intent)
    requires |entries| <= 12
    ensures var r := EnsureCommitment(entries, intent); |r| <= |entries| + 1 && exists at :: EntriesAround(entries, at, r)
  {
    hide EnsureCommitment, SoundsCommitting;
    CommitmentKeepsEntries(entries, intent);
    var r := EnsureCommitment(entries, intent);
    if i :| AdoptedAt(entries, i, r) {
      AdoptedKeeps(entries, i, r);
    } else if at :| InsertedAt(entries, at, r) {
      InsertedKeeps(entries, at, r);
      assert EntriesAround(entries, at, r);
    } else {
      assert EntriesAround(entries, |entries|, r);
    }
  }

  lemma TasksAround(entries: seq<Entry>, infer: Inference, asked: seq<Entry>, at: nat)
    requires EntriesAround(asked[..if |asked| > 12 then 12 else |asked|], at, entries)
    ensures KeptAround(asked, at, Built(entries, infer))
  {
    hide Built;
    var tasks, collected := Built(entries, infer), asked[..if |asked| > 12 then 12 else |asked|];
    forall i | 0 <= i < |asked| && i < 11
      ensures var k := if i < at then i else i + 1;
        && k < |tasks| && tasks[k].objective == asked[i].objective && tasks[k].expectedArtifacts == asked[i].expectedArtifacts
        && (tasks[k].requiredTools == asked[i].requiredTools || tasks[k].requiredTools == ["commit_direction"])
    {
      assert collected[i] == asked[i];
      TaskOfEntry(entries, infer, if i < at then i else i + 1);
    }
  }

  /** No proposal loses an entry to the commitment: each of its first eleven usable entries has a task with its
      objective and artifacts, in the proposal's order, and there is at most one more. */
  lemma ProposalKept(raws: seq<RawTask>, intent: JobModel.Intent, infer: Inference)
    ensures var entries, tasks := UsableEntries(raws), Built(Accepted(raws, intent), infer);
      |tasks| <= |entries| + 1 && exists at :: KeptAround(entries, at, tasks)
  {
    var entries := UsableEntries(raws);
    var collected := entries[..if |entries| > 12 then 12 else |entries|];
    assert collected == Clamped(entries);
    hide UsableEntries, EnsureCommitment, TaskAt, EntriesAround, KeptAround;
    EntriesKept(collected, intent);
    var at :| EntriesAround(collected, at, EnsureCommitment(collected, intent));
    TasksAround(EnsureCommitment(collected, intent), infer, entries, at);
  }

  lemma BuiltCommits(entries: seq<Entry>, infer: Inference)
    requires exists i :: 0 <= i < |entries| && Commits(entries[i])
    ensures exists t :: t in Built(entries, infer) && COMMIT_TOOL in t.requiredTools
  {
    var i :| 0 <= i < |entries| && Commits(entries[i]);
    assert Built(entries, infer)[i] in Built(entries, infer);
  }
}
