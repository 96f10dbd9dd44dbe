/** The transcript of a job: messages, and in a second list the round each of them belongs to. Edits
    delete, append and rewrite in place; what matters is that the two lists stay matched, that at most
    one banner of each kind is live, and that every tool call keeps its result. */
module Transcript {
  import opened Ids

  const CONTEXT_MARK: string := "[EXECUTION STATE"
  const STOPPED_MARK: string := "[SYSTEM: that round was stopped"
  const PLANNED_MARK: string := "[SYSTEM: planning for this task"
  const COMPACTED_MARK: string := "[compacted"
  const STALL_NUDGE: string := "[SYSTEM: the connection stalled"
  const STALE_AFTER_ROUNDS: int := 3
  const GRACE_MULTIPLIER: int := 3
  const LARGE_FIELD: nat := 200
  const LARGE_TEXT: nat := 4000

  datatype Option<T> = None | Some(value: T)

  /** The arguments of a tool call, as far as compaction reads them. */
  datatype Args = NotAnObject | Fields(path: Option<string>, content: Option<string>, newText: Option<string>, oldText: Option<string>)

  datatype Call = Call(id: string, name: string, args: Args)

  /** `Picture` is a user message that shows a screenshot. */
  datatype Message =
    | System(text: string)
    | User(text: string)
    | Picture
    | Assistant(text: string, calls: seq<Call>)
    | ToolResult(id: string, name: string, text: string)

  datatype Entry = Entry(message: Message, round: int)

  predicate IsContext(m: Message) {
    m.User? && CONTEXT_MARK <= m.text
  }

  predicate IsDirective(m: Message) {
    m.User? && (STOPPED_MARK <= m.text || PLANNED_MARK <= m.text)
  }

  /** What a look at the previous message skips: anything whose text is a context banner. */
  predicate IsBanner(m: Message) {
    !m.Picture? && CONTEXT_MARK <= m.text
  }

  type Mark = Message -> bool

  // ---- edits on matched lists ----

  function Without(es: seq<Entry>, mark: Mark): seq<Entry> {
    if es == [] then []
    else Without(es[..|es| - 1], mark) + if mark(es[|es| - 1].message) then [] else [es[|es| - 1]]
  }

  lemma {:induction false} WithoutConcat(a: seq<Entry>, b: seq<Entry>, mark: Mark)
    ensures Without(a + b, mark) == Without(a, mark) + Without(b, mark)
  {
    if b == [] {
      assert a + b == a && Without(a, mark) + [] == Without(a, mark);
    } else {
      assert (a + b)[..|a + b| - 1] == a + b[..|b| - 1];
      WithoutConcat(a, b[..|b| - 1], mark);
    }
  }

  lemma WithoutCons(e: Entry, es: seq<Entry>, mark: Mark)
    ensures Without([e] + es, mark) == (if mark(e.message) then [] else [e]) + Without(es, mark)
  {
    WithoutConcat([e], es, mark);
    assert [e][..0] == [] && Without([], mark) == [];
    assert Without([e], mark) == if mark(e.message) then [] else [e];
  }

  /** What both in-place edits do: take out every marked message, put the new one at the end. */
  function Replaced(es: seq<Entry>, mark: Mark, text: string, round: int): seq<Entry> {
    Without(es, mark) + [Entry(User(text), round)]
  }

  function CountMarked(es: seq<Entry>, mark: Mark): nat {
    if es == [] then 0
    else CountMarked(es[..|es| - 1], mark) + if mark(es[|es| - 1].message) then 1 else 0
  }

  lemma {:induction false} CountConcat(a: seq<Entry>, b: seq<Entry>, mark: Mark)
    ensures CountMarked(a + b, mark) == CountMarked(a, mark) + CountMarked(b, mark)
  {
    if b == [] {
      assert a + b == a;
    } else {
      assert (a + b)[..|a + b| - 1] == a + b[..|b| - 1];
      CountConcat(a, b[..|b| - 1], mark);
    }
  }

  lemma {:induction false} CountWithout(es: seq<Entry>, out: Mark, mark: Mark)
    ensures CountMarked(Without(es, out), mark) <= CountMarked(es, mark)
    ensures (forall m :: mark(m) ==> out(m)) ==> CountMarked(Without(es, out), mark) == 0
    ensures (forall m :: mark(m) ==> !out(m)) ==> CountMarked(Without(es, out), mark) == CountMarked(es, mark)
  {
    if es != [] {
      var init, last := es[..|es| - 1], es[|es| - 1];
      CountWithout(init, out, mark);
      var rest := Without(init, out);
      if !out(last.message) {
        assert (rest + [last])[..|rest|] == rest;
      } else {
        assert rest + [] == rest;
      }
    }
  }

  /** After the edit exactly one marked message is left, the new one; the number of messages of any other
      kind is what it was. */
  lemma OneMarkedLeft(es: seq<Entry>, mark: Mark, other: Mark, text: string, round: int)
    requires mark(User(text)) && forall m :: !(mark(m) && other(m))
    ensures var r := Replaced(es, mark, text, round);
      CountMarked(r, mark) == 1 && r[|r| - 1].message == User(text) && CountMarked(r, other) == CountMarked(es, other)
  {
    var e := Entry(User(text), round);
    CountWithout(es, mark, mark);
    CountWithout(es, mark, other);
    assert !other(User(text));
    CountConcat(Without(es, mark), [e], mark);
    CountConcat(Without(es, mark), [e], other);
    assert [e][..0] == [];
  }

  lemma MarksAreDisjoint()
    ensures forall m :: !(IsContext(m) && IsDirective(m))
    ensures forall m :: IsContext(m) ==> IsBanner(m)
    ensures !IsContext(User(STALL_NUDGE)) && !IsDirective(User(STALL_NUDGE)) && !IsBanner(User(STALL_NUDGE))
  {
    assert CONTEXT_MARK[1] == 'E' && STOPPED_MARK[1] == 'S' && PLANNED_MARK[1] == 'S' && STALL_NUDGE[1] == 'S';
    assert STOPPED_MARK[11] == 'a' && STALL_NUDGE[11] == 'e';
    assert PLANNED_MARK[9] == 'p' && STALL_NUDGE[9] == 't';
  }

  // ---- tool calls and their results ----

  function CallIds(calls: seq<Call>): (ids: seq<string>)
    ensures |ids| == |calls| && forall i :: 0 <= i < |calls| ==> ids[i] == calls[i].id
  {
    seq(|calls|, i requires 0 <= i < |calls| => calls[i].id)
  }

  /** The calls still without a result after one more message; `None` once a result comes that was not the
      next one waited for, or an assistant message before all results are in. */
  function AfterMessage(pending: Option<seq<string>>, m: Message): Option<seq<string>> {
    if pending.None? then None
    else
      match m
      case Assistant(_, calls) => if pending.value == [] then Some(CallIds(calls)) else None
      case ToolResult(id, _, _) => if pending.value != [] && pending.value[0] == id then Some(pending.value[1..]) else None
      case _ => pending
  }

  function Pending(es: seq<Entry>): Option<seq<string>> {
    if es == [] then Some([]) else AfterMessage(Pending(es[..|es| - 1]), es[|es| - 1].message)
  }

  /** Every tool call has exactly one result, in order, before the next assistant message. */
  predicate Answered(es: seq<Entry>) {
    Pending(es) == Some([])
  }

  /** The ids of all calls, and those of all results, in the order of the transcript. */
  function Asked(es: seq<Entry>): seq<string> {
    if es == [] then []
    else
      var m := es[|es| - 1].message;
      Asked(es[..|es| - 1]) + if m.Assistant? then CallIds(m.calls) else []
  }

  function Given(es: seq<Entry>): seq<string> {
    if es == [] then []
    else
      var m := es[|es| - 1].message;
      Given(es[..|es| - 1]) + if m.ToolResult? then [m.id] else []
  }

  lemma {:induction false} PendingIsRest(es: seq<Entry>)
    requires Pending(es).Some?
    ensures Asked(es) == Given(es) + Pending(es).value
  {
    if es != [] {
      var init, m := es[..|es| - 1], es[|es| - 1].message;
      PendingIsRest(init);
      var p := Pending(init).value;
      if m.ToolResult? {
        assert p == [p[0]] + p[1..];
        assert Given(es) + p[1..] == Given(init) + ([m.id] + p[1..]);
      } else if m.Assistant? {
        assert Given(init) + [] == Given(init) && Given(es) == Given(init);
      }
    }
  }

  /** In an answered transcript, then, calls and results have the same ids in the same order. */
  lemma AnsweredInOrder(es: seq<Entry>)
    requires Answered(es)
    ensures Asked(es) == Given(es)
  {
    PendingIsRest(es);
  }

  lemma PendingAppend(es: seq<Entry>, e: Entry)
    ensures Pending(es + [e]) == AfterMessage(Pending(es), e.message)
  {
    assert (es + [e])[..|es|] == es;
  }

  /** Taking user messages out does not touch the pairing, wherever they stand. */
  lemma {:induction false} PendingWithout(es: seq<Entry>, mark: Mark)
    requires forall m :: mark(m) ==> m.User?
    ensures Pending(Without(es, mark)) == Pending(es)
  {
    if es != [] {
      var init, last := es[..|es| - 1], es[|es| - 1];
      PendingWithout(init, mark);
      if mark(last.message) {
        assert Without(es, mark) == Without(init, mark);
      } else {
        PendingAppend(Without(init, mark), last);
      }
    }
  }

  lemma ReplacedKeepsAnswers(es: seq<Entry>, mark: Mark, text: string, round: int)
    requires forall m :: mark(m) ==> m.User?
    ensures Pending(Replaced(es, mark, text, round)) == Pending(es)
  {
    PendingWithout(es, mark);
    PendingAppend(Without(es, mark), Entry(User(text), round));
  }

  // ---- a tool round ----

  /** What came of one call: its result text, and whether a screenshot is shown with it. */
  datatype Outcome = Outcome(text: string, shown: bool)

  function ResultEntries(calls: seq<Call>, outcomes: seq<Outcome>, round: int): seq<Entry>
    requires |calls| == |outcomes|
  {
    if calls == [] then []
    else
      var n := |calls| - 1;
      ResultEntries(calls[..n], outcomes[..n], round)
      + [Entry(ToolResult(calls[n].id, calls[n].name, outcomes[n].text), round)]
      + if outcomes[n].shown then [Entry(Picture, round)] else []
  }

  function ToolRound(text: string, calls: seq<Call>, outcomes: seq<Outcome>, note: Option<string>, round: int): seq<Entry>
    requires |calls| == |outcomes|
  {
    [Entry(Assistant(text, calls), round)] + ResultEntries(calls, outcomes, round)
    + if note.Some? then [Entry(User(note.value), round)] else []
  }

  lemma LastResult(calls: seq<Call>, outcomes: seq<Outcome>, round: int)
    requires calls != [] && |calls| == |outcomes|
    ensures var n := |calls| - 1;
      ResultEntries(calls, outcomes, round) == ResultEntries(calls[..n], outcomes[..n], round)
        + ([Entry(ToolResult(calls[n].id, calls[n].name, outcomes[n].text), round)] + if outcomes[n].shown then [Entry(Picture, round)] else [])
  {
  }

  lemma NoResults(round: int)
    ensures ResultEntries([], [], round) == []
  {
  }

  lemma {:induction false} ResultsConcat(a: seq<Call>, x: seq<Outcome>, b: seq<Call>, y: seq<Outcome>, round: int)
    requires |a| == |x| && |b| == |y|
    ensures ResultEntries(a + b, x + y, round) == ResultEntries(a, x, round) + ResultEntries(b, y, round)
  {
    hide ResultEntries;
    if b == [] {
      NoResults(round);
      assert a + b == a && x + y == x && y == [] && ResultEntries(a, x, round) + [] == ResultEntries(a, x, round);
    } else {
      var n := |b| - 1;
      assert (a + b)[..|a + b| - 1] == a + b[..n] && (x + y)[..|x + y| - 1] == x + y[..n];
      ResultsConcat(a, x, b[..n], y[..n], round);
      LastResult(a + b, x + y, round);
      LastResult(b, y, round);
    }
  }

  lemma OneResult(c: Call, o: Outcome, round: int)
    ensures ResultEntries([c], [o], round)
      == [Entry(ToolResult(c.id, c.name, o.text), round)] + if o.shown then [Entry(Picture, round)] else []
  {
    assert [c][..0] == [] && [o][..0] == [];
  }

  /** Every call's result stands in its place, under the call's id and name, and its screenshot right after it. */
  lemma ResultInPlace(calls: seq<Call>, outcomes: seq<Outcome>, round: int, k: nat)
    requires k < |calls| == |outcomes|
    ensures ResultEntries(calls, outcomes, round)
      == ResultEntries(calls[..k], outcomes[..k], round)
      + ([Entry(ToolResult(calls[k].id, calls[k].name, outcomes[k].text), round)] + if outcomes[k].shown then [Entry(Picture, round)] else [])
      + ResultEntries(calls[k + 1..], outcomes[k + 1..], round)
  {
    hide ResultEntries;
    assert calls == calls[..k] + [calls[k]] + calls[k + 1..] && outcomes == outcomes[..k] + [outcomes[k]] + outcomes[k + 1..];
    ResultsConcat(calls[..k] + [calls[k]], outcomes[..k] + [outcomes[k]], calls[k + 1..], outcomes[k + 1..], round);
    ResultsConcat(calls[..k], outcomes[..k], [calls[k]], [outcomes[k]], round);
    OneResult(calls[k], outcomes[k], round);
  }

  lemma {:induction false} ResultsAnswer(es: seq<Entry>, calls: seq<Call>, k: nat, outcomes: seq<Outcome>, round: int)
    requires k <= |calls| && |outcomes| == k && Pending(es) == Some(CallIds(calls))
    ensures Pending(es + ResultEntries(calls[..k], outcomes, round)) == Some(CallIds(calls)[k..])
  {
    if k == 0 {
      assert es + ResultEntries(calls[..0], outcomes, round) == es;
    } else {
      var before := ResultEntries(calls[..k - 1], outcomes[..k - 1], round);
      var result := Entry(ToolResult(calls[k - 1].id, calls[k - 1].name, outcomes[k - 1].text), round);
      ResultsAnswer(es, calls, k - 1, outcomes[..k - 1], round);
      assert calls[..k][..k - 1] == calls[..k - 1];
      PendingAppend(es + before, result);
      assert CallIds(calls)[k - 1..][1..] == CallIds(calls)[k..];
      PendingAppend(es + before + [result], Entry(Picture, round));
      assert es + (before + [result]) == es + before + [result];
      assert es + (before + [result] + [Entry(Picture, round)]) == es + before + [result] + [Entry(Picture, round)];
      assert before + [result] + [] == before + [result];
    }
  }

  lemma ToolRoundAnswers(es: seq<Entry>, text: string, calls: seq<Call>, outcomes: seq<Outcome>, note: Option<string>, round: int)
    requires Answered(es) && |calls| == |outcomes|
    ensures Answered(es + ToolRound(text, calls, outcomes, note, round))
  {
    hide Pending, ResultEntries;
    var first := Entry(Assistant(text, calls), round);
    PendingAppend(es, first);
    ResultsAnswer(es + [first], calls, |calls|, outcomes, round);
    assert calls[..|calls|] == calls && CallIds(calls)[|calls|..] == [];
    var results := ResultEntries(calls, outcomes, round);
    var all := es + [first] + results;
    if note.Some? {
      PendingAppend(all, Entry(User(note.value), round));
      assert es + ([first] + results + [Entry(User(note.value), round)]) == all + [Entry(User(note.value), round)];
    } else {
      assert es + ([first] + results + []) == all;
    }
  }

  lemma {:induction false} ResultsUnmarked(calls: seq<Call>, outcomes: seq<Outcome>, round: int, mark: Mark)
    requires |calls| == |outcomes| && forall m :: mark(m) ==> m.User?
    ensures CountMarked(ResultEntries(calls, outcomes, round), mark) == 0
  {
    if calls != [] {
      var n := |calls| - 1;
      var before := ResultEntries(calls[..n], outcomes[..n], round);
      var result := [Entry(ToolResult(calls[n].id, calls[n].name, outcomes[n].text), round)];
      ResultsUnmarked(calls[..n], outcomes[..n], round, mark);
      CountConcat(before, result, mark);
      CountConcat(before + result, if outcomes[n].shown then [Entry(Picture, round)] else [], mark);
      assert result[..0] == [] && [Entry(Picture, round)][..0] == [];
    }
  }

  // ---- compaction ----

  function Marker(what: string, size: nat): string {
    COMPACTED_MARK + what + Decimal(size) + "]"
  }

  function CompactedField(v: Option<string>): Option<string> {
    if v.Some? && |v.value| > LARGE_FIELD && !(COMPACTED_MARK <= v.value) then Some(Marker(" field ", |v.value|)) else v
  }

  /** When compaction runs, which files are still close to the work, and since when the current task runs. */
  datatype Focus = Focus(now: int, near: set<string>, taskStart: Option<int>) {
    predicate Pinned(round: int) { taskStart.Some? && round >= taskStart.value }

    function Threshold(args: Args): int {
      if args.Fields? && args.path.Some? && args.path.value in near then STALE_AFTER_ROUNDS * GRACE_MULTIPLIER else STALE_AFTER_ROUNDS
    }
  }

  predicate WritesFile(name: string) {
    name == "write_file" || name == "edit_file"
  }

  predicate LoadsGuidance(name: string) {
    name == "get_design_guidance"
  }

  function CompactedCall(c: Call, round: int, f: Focus): (c': Call)
    ensures c'.id == c.id && c'.name == c.name
  {
    if !WritesFile(c.name) || c.args.NotAnObject? || f.now - round < f.Threshold(c.args) then c
    else
      c.(args := c.args.(content := CompactedField(c.args.content), newText := CompactedField(c.args.newText),
                         oldText := CompactedField(c.args.oldText)))
  }

  function CompactedCalls(calls: seq<Call>, round: int, f: Focus): (r: seq<Call>)
    ensures |r| == |calls| && forall i :: 0 <= i < |calls| ==> r[i] == CompactedCall(calls[i], round, f)
  {
    seq(|calls|, i requires 0 <= i < |calls| => CompactedCall(calls[i], round, f))
  }

  function Compacted(m: Message, round: int, f: Focus): Message {
    var stale := f.now - round >= STALE_AFTER_ROUNDS;
    match m
    case ToolResult(id, name, text) =>
      if LoadsGuidance(name) && !f.Pinned(round) && stale && !(COMPACTED_MARK <= text)
      then ToolResult(id, name, Marker(" guidance ", |text|)) else m
    case Assistant(text, calls) =>
      if calls != [] then Assistant(text, CompactedCalls(calls, round, f))
      else if stale && |text| > LARGE_TEXT && !(COMPACTED_MARK <= text) then Assistant(Marker(" reply ", |text|), [])
      else m
    case Picture => if stale then User(Marker(" screenshot ", 0)) else m
    case _ => m
  }

  /** A text worth shortening that was not shortened yet. */
  predicate Bulky(v: Option<string>) {
    v.Some? && |v.value| > 200 && !("[compacted" <= v.value)
  }

  /** A call is shortened exactly if it writes a file, was made three rounds ago, or nine if its file is still
      close to the work, and one of its texts is long. */
  lemma CallShortenedIff(c: Call, round: int, f: Focus)
    ensures CompactedCall(c, round, f) != c <==>
      && (c.name == "write_file" || c.name == "edit_file") && c.args.Fields?
      && f.now - round >= (if c.args.path.Some? && c.args.path.value in f.near then 9 else 3)
      && (Bulky(c.args.content) || Bulky(c.args.newText) || Bulky(c.args.oldText))
    ensures CallKept(c, CompactedCall(c, round, f))
  {
    hide Marker;
    if c.args.Fields? {
      FieldShortenedIff(c.args.content);
      FieldShortenedIff(c.args.newText);
      FieldShortenedIff(c.args.oldText);
    }
  }

  lemma FieldShortenedIff(v: Option<string>)
    ensures CompactedField(v) != v <==> Bulky(v)
    ensures FieldKept(v, CompactedField(v))
  {
    hide Marker;
    if v.Some? {
      MarkersAreMarked(" field ", |v.value|);
    }
  }

  predicate FieldKept(v: Option<string>, v': Option<string>) {
    v' == v || (v.Some? && v'.Some? && "[compacted" <= v'.value)
  }

  /** The same call, but for long texts, in the place of which it says that they were left out. */
  predicate CallKept(c: Call, c': Call) {
    && c'.id == c.id && c'.name == c.name && c'.args.Fields? == c.args.Fields?
    && (c.args.Fields? ==>
          && c'.args.path == c.args.path && FieldKept(c.args.content, c'.args.content)
          && FieldKept(c.args.newText, c'.args.newText) && FieldKept(c.args.oldText, c'.args.oldText))
  }

  /** The same message, but for what it says was left out. */
  predicate MessageKept(m: Message, m': Message) {
    match m
    case ToolResult(id, name, text) => m'.ToolResult? && m'.id == id && m'.name == name && (m'.text == text || "[compacted" <= m'.text)
    case Assistant(text, calls) =>
      && m'.Assistant? && (m'.text == text || (calls == [] && "[compacted" <= m'.text)) && |m'.calls| == |calls|
      && forall i :: 0 <= i < |calls| ==> CallKept(calls[i], m'.calls[i])
    case Picture => m' == m || (m'.User? && "[compacted" <= m'.text)
    case _ => m' == m
  }

  /** Exactly this is shortened, once it is three rounds old: guidance that was not loaded during the current
      task, screenshots, replies of more than 4000 characters, and the long texts of file-writing calls,
      which have nine rounds if their file is close to the work. */
  lemma ShortenedIff(m: Message, round: int, f: Focus)
    ensures var age := f.now - round;
      Compacted(m, round, f) != m <==>
        || (m.ToolResult? && m.name == "get_design_guidance" && age >= 3 && !(f.taskStart.Some? && round >= f.taskStart.value)
            && !("[compacted" <= m.text))
        || (m.Picture? && age >= 3)
        || (m.Assistant? && m.calls == [] && age >= 3 && |m.text| > 4000 && !("[compacted" <= m.text))
        || (m.Assistant? && exists c :: c in m.calls && CompactedCall(c, round, f) != c)
    ensures MessageKept(m, Compacted(m, round, f))
  {
    hide Marker, CompactedCall;
    MarkersAreMarked(" screenshot ", 0);
    match m {
      case ToolResult(_, _, text) => MarkersAreMarked(" guidance ", |text|);
      case Assistant(text, calls) =>
        MarkersAreMarked(" reply ", |text|);
        forall i | 0 <= i < |calls| ensures CallKept(calls[i], CompactedCall(calls[i], round, f)) {
          CallShortenedIff(calls[i], round, f);
        }
        assert (exists c :: c in calls && CompactedCall(c, round, f) != c) <==> CompactedCalls(calls, round, f) != calls;
      case _ =>
    }
  }

  function CompactedAll(es: seq<Entry>, f: Focus): (r: seq<Entry>)
    ensures |r| == |es| && forall i :: 0 <= i < |es| ==> r[i] == Entry(Compacted(es[i].message, es[i].round, f), es[i].round)
  {
    seq(|es|, i requires 0 <= i < |es| => Entry(Compacted(es[i].message, es[i].round, f), es[i].round))
  }

  lemma MarkersAreMarked(what: string, size: nat)
    ensures COMPACTED_MARK <= Marker(what, size)
    ensures !(CONTEXT_MARK <= Marker(what, size)) && !(STOPPED_MARK <= Marker(what, size)) && !(PLANNED_MARK <= Marker(what, size))
  {
    var m := Marker(what, size);
    assert m[1] == COMPACTED_MARK[1] == 'c';
    assert CONTEXT_MARK[1] == 'E' && STOPPED_MARK[1] == 'S' && PLANNED_MARK[1] == 'S';
  }

  lemma FieldAbsorbs(v: Option<string>)
    ensures CompactedField(CompactedField(v)) == CompactedField(v)
  {
    hide Marker;
    if v.Some? {
      MarkersAreMarked(" field ", |v.value|);
    }
  }

  /** The later run is at least as eager: it is later, no file has come closer, no task has restarted. */
  ghost predicate NoNarrower(f: Focus, g: Focus) {
    f.now <= g.now && g.near <= f.near && forall r: int :: g.Pinned(r) ==> f.Pinned(r)
  }

  lemma CallAbsorbs(c: Call, round: int, f: Focus, g: Focus)
    requires f.now <= g.now && g.near <= f.near
    ensures CompactedCall(CompactedCall(c, round, f), round, g) == CompactedCall(c, round, g)
  {
    hide CompactedField;
    if c.args.Fields? {
      FieldAbsorbs(c.args.content);
      FieldAbsorbs(c.args.newText);
      FieldAbsorbs(c.args.oldText);
    }
  }

  lemma MessageAbsorbs(m: Message, round: int, f: Focus, g: Focus)
    requires f.now <= g.now && g.near <= f.near && (g.Pinned(round) ==> f.Pinned(round))
    ensures Compacted(Compacted(m, round, f), round, g) == Compacted(m, round, g)
  {
    hide Marker, CompactedCall;
    match m {
      case ToolResult(_, _, text) => MarkersAreMarked(" guidance ", |text|);
      case Assistant(text, calls) =>
        MarkersAreMarked(" reply ", |text|);
        forall i | 0 <= i < |calls|
          ensures CompactedCall(CompactedCall(calls[i], round, f), round, g) == CompactedCall(calls[i], round, g)
        {
          CallAbsorbs(calls[i], round, f, g);
        }
        assert CompactedCalls(CompactedCalls(calls, round, f), round, g) == CompactedCalls(calls, round, g);
      case _ =>
    }
  }

  /** A later compaction does what an earlier one did; in particular running it twice changes nothing. */
  lemma CompactedTwice(es: seq<Entry>, f: Focus, g: Focus)
    requires NoNarrower(f, g)
    ensures CompactedAll(CompactedAll(es, f), g) == CompactedAll(es, g)
  {
    hide Compacted;
    forall i | 0 <= i < |es|
      ensures Compacted(Compacted(es[i].message, es[i].round, f), es[i].round, g) == Compacted(es[i].message, es[i].round, g)
    {
      MessageAbsorbs(es[i].message, es[i].round, f, g);
    }
  }

  lemma CompactedKeepsRole(m: Message, round: int, f: Focus, pending: Option<seq<string>>)
    ensures var m' := Compacted(m, round, f);
      AfterMessage(pending, m') == AfterMessage(pending, m) && IsContext(m') == IsContext(m) && IsDirective(m') == IsDirective(m)
  {
    hide Marker, CompactedCall;
    MarkersAreMarked(" screenshot ", 0);
    if m.Assistant? {
      assert CallIds(CompactedCalls(m.calls, round, f)) == CallIds(m.calls);
    }
  }

  lemma {:induction false} CompactionKeepsShape(es: seq<Entry>, f: Focus)
    ensures var r := CompactedAll(es, f);
      Pending(r) == Pending(es) && CountMarked(r, IsContext) == CountMarked(es, IsContext) && CountMarked(r, IsDirective) == CountMarked(es, IsDirective)
  {
    hide Compacted;
    if es != [] {
      var init, last := es[..|es| - 1], es[|es| - 1];
      CompactionKeepsShape(init, f);
      assert CompactedAll(es, f)[..|es| - 1] == CompactedAll(init, f);
      CompactedKeepsRole(last.message, last.round, f, Pending(init));
    }
  }

  // ---- any sequence of edits ----

  datatype Edit =
    | Context(block: string, round: int)
    | Directive(text: string, round: int)
    | Note(text: string, round: int)
    | Partial(text: string, round: int)
    | Tools(text: string, calls: seq<Call>, outcomes: seq<Outcome>, note: Option<string>, round: int)
    | Compaction(focus: Focus)

  /** Banners carry their mark and no other message the loop writes does. */
  predicate WellMarked(e: Edit) {
    match e
    case Context(block, _) => IsContext(User(block))
    case Directive(text, _) => IsDirective(User(text))
    case Note(text, _) => !IsContext(User(text)) && !IsDirective(User(text))
    case Partial(_, _) => true
    case Tools(_, calls, outcomes, note, _) =>
      |calls| == |outcomes| && (note.Some? ==> !IsContext(User(note.value)) && !IsDirective(User(note.value)))
    case Compaction(_) => true
  }

  function Edited(es: seq<Entry>, e: Edit): seq<Entry>
    requires WellMarked(e)
  {
    match e
    case Context(block, round) => Replaced(es, IsContext, block, round)
    case Directive(text, round) => Replaced(es, IsDirective, text, round)
    case Note(text, round) => es + [Entry(User(text), round)]
    case Partial(text, round) => es + [Entry(Assistant(text, []), round)]
    case Tools(text, calls, outcomes, note, round) => es + ToolRound(text, calls, outcomes, note, round)
    case Compaction(focus) => CompactedAll(es, focus)
  }

  ghost predicate Sound(es: seq<Entry>) {
    Answered(es) && CountMarked(es, IsContext) <= 1 && CountMarked(es, IsDirective) <= 1
  }

  lemma PlainEntryCounts(es: seq<Entry>, e: Entry, mark: Mark)
    requires !mark(e.message)
    ensures CountMarked(es + [e], mark) == CountMarked(es, mark)
  {
    assert (es + [e])[..|es|] == es;
  }

  lemma ToolRoundCounts(es: seq<Entry>, text: string, calls: seq<Call>, outcomes: seq<Outcome>, note: Option<string>, round: int, mark: Mark)
    requires |calls| == |outcomes| && (forall m :: mark(m) ==> m.User?) && (note.Some? ==> !mark(User(note.value)))
    ensures CountMarked(es + ToolRound(text, calls, outcomes, note, round), mark) == CountMarked(es, mark)
  {
    var first, results := [Entry(Assistant(text, calls), round)], ResultEntries(calls, outcomes, round);
    var last := if note.Some? then [Entry(User(note.value), round)] else [];
    ResultsUnmarked(calls, outcomes, round, mark);
    CountConcat(first, results, mark);
    CountConcat(first + results, last, mark);
    CountConcat(es, first + results + last, mark);
    assert first[..0] == [];
    if note.Some? {
      assert last[..0] == [];
    }
  }

  /** Every edit the loop makes keeps each tool call with its one result and at most one banner of each
      kind; putting a banner in leaves exactly one, at the end. */
  lemma EditKeepsSound(es: seq<Entry>, e: Edit)
    requires Sound(es) && WellMarked(e)
    ensures Sound(Edited(es, e))
    ensures e.Context? ==> CountMarked(Edited(es, e), IsContext) == 1
    ensures e.Directive? ==> CountMarked(Edited(es, e), IsDirective) == 1
  {
    MarksAreDisjoint();
    match e {
      case Context(block, round) =>
        ReplacedKeepsAnswers(es, IsContext, block, round);
        OneMarkedLeft(es, IsContext, IsDirective, block, round);
      case Directive(text, round) =>
        ReplacedKeepsAnswers(es, IsDirective, text, round);
        OneMarkedLeft(es, IsDirective, IsContext, text, round);
      case Note(text, round) =>
        PendingAppend(es, Entry(User(text), round));
        PlainEntryCounts(es, Entry(User(text), round), IsContext);
        PlainEntryCounts(es, Entry(User(text), round), IsDirective);
      case Partial(text, round) =>
        PendingAppend(es, Entry(Assistant(text, []), round));
        PlainEntryCounts(es, Entry(Assistant(text, []), round), IsContext);
        PlainEntryCounts(es, Entry(Assistant(text, []), round), IsDirective);
      case Tools(text, calls, outcomes, note, round) =>
        ToolRoundAnswers(es, text, calls, outcomes, note, round);
        ToolRoundCounts(es, text, calls, outcomes, note, round, IsContext);
        ToolRoundCounts(es, text, calls, outcomes, note, round, IsDirective);
      case Compaction(focus) => CompactionKeepsShape(es, focus);
    }
  }

  function EditedAll(es: seq<Entry>, edits: seq<Edit>): seq<Entry>
    requires forall e :: e in edits ==> WellMarked(e)
    decreases |edits|
  {
    if edits == [] then es else EditedAll(Edited(es, edits[0]), edits[1..])
  }

  lemma {:induction false} EditsKeepSound(es: seq<Entry>, edits: seq<Edit>)
    requires Sound(es) && forall e :: e in edits ==> WellMarked(e)
    ensures Sound(EditedAll(es, edits))
    decreases |edits|
  {
    hide Edited, Sound;
    if edits != [] {
      EditKeepsSound(es, edits[0]);
      EditsKeepSound(Edited(es, edits[0]), edits[1..]);
    }
  }

  // ---- compaction between edits ----

  function CompactionsLeftOut(edits: seq<Edit>): (r: seq<Edit>)
    ensures forall e :: e in r ==> e in edits && !e.Compaction?
  {
    if edits == [] then []
    else (if edits[0].Compaction? then [] else [edits[0]]) + CompactionsLeftOut(edits[1..])
  }

  lemma CompactedConcat(a: seq<Entry>, b: seq<Entry>, g: Focus)
    ensures CompactedAll(a + b, g) == CompactedAll(a, g) + CompactedAll(b, g)
  {
    hide Compacted;
  }

  /** A kind of message that compaction neither makes nor unmakes. */
  ghost predicate Kept(mark: Mark, g: Focus) {
    forall m, round :: mark(Compacted(m, round, g)) == mark(m)
  }

  lemma {:induction false} CompactedWithout(es: seq<Entry>, mark: Mark, g: Focus)
    requires Kept(mark, g)
    ensures CompactedAll(Without(es, mark), g) == Without(CompactedAll(es, g), mark)
  {
    hide Compacted;
    if es != [] {
      var init, last := es[..|es| - 1], es[|es| - 1];
      CompactedWithout(init, mark, g);
      assert CompactedAll(es, g)[..|es| - 1] == CompactedAll(init, g);
      var tail := if mark(last.message) then [] else [last];
      CompactedConcat(Without(init, mark), tail, g);
      assert mark(Compacted(last.message, last.round, g)) == mark(last.message);
    }
  }

  lemma BannersKept(g: Focus)
    ensures Kept(IsContext, g) && Kept(IsDirective, g)
  {
    hide Compacted, IsContext, IsDirective;
    forall m, round ensures IsContext(Compacted(m, round, g)) == IsContext(m) && IsDirective(Compacted(m, round, g)) == IsDirective(m) {
      CompactedKeepsRole(m, round, g, None);
    }
  }

  lemma ReplacedAlike(a: seq<Entry>, b: seq<Entry>, mark: Mark, text: string, round: int, g: Focus)
    requires CompactedAll(a, g) == CompactedAll(b, g) && Kept(mark, g)
    ensures CompactedAll(Replaced(a, mark, text, round), g) == CompactedAll(Replaced(b, mark, text, round), g)
  {
    hide Compacted, Kept;
    CompactedWithout(a, mark, g);
    CompactedWithout(b, mark, g);
    CompactedConcat(Without(a, mark), [Entry(User(text), round)], g);
    CompactedConcat(Without(b, mark), [Entry(User(text), round)], g);
  }

  /** Transcripts that a final compaction cannot tell apart stay so under every edit. */
  lemma EditedAlike(a: seq<Entry>, b: seq<Entry>, e: Edit, g: Focus)
    requires CompactedAll(a, g) == CompactedAll(b, g) && WellMarked(e) && !e.Compaction?
    ensures CompactedAll(Edited(a, e), g) == CompactedAll(Edited(b, e), g)
  {
    BannersKept(g);
    hide CompactedAll, Replaced, IsContext, IsDirective, Kept;
    match e {
      case Context(block, round) => ReplacedAlike(a, b, IsContext, block, round, g);
      case Directive(text, round) => ReplacedAlike(a, b, IsDirective, text, round, g);
      case Note(text, round) =>
        CompactedConcat(a, [Entry(User(text), round)], g);
        CompactedConcat(b, [Entry(User(text), round)], g);
      case Partial(text, round) =>
        CompactedConcat(a, [Entry(Assistant(text, []), round)], g);
        CompactedConcat(b, [Entry(Assistant(text, []), round)], g);
      case Tools(text, calls, outcomes, note, round) =>
        CompactedConcat(a, ToolRound(text, calls, outcomes, note, round), g);
        CompactedConcat(b, ToolRound(text, calls, outcomes, note, round), g);
    }
  }

  lemma {:induction false} CompactionsAbsorbed(a: seq<Entry>, b: seq<Entry>, edits: seq<Edit>, g: Focus)
    requires CompactedAll(a, g) == CompactedAll(b, g) && forall e :: e in edits ==> WellMarked(e)
    requires forall e :: e in edits && e.Compaction? ==> NoNarrower(e.focus, g)
    ensures CompactedAll(EditedAll(a, edits), g) == CompactedAll(EditedAll(b, CompactionsLeftOut(edits)), g)
    decreases |edits|
  {
    hide CompactedAll, Edited, NoNarrower;
    if edits != [] {
      var e, rest := edits[0], edits[1..];
      if e.Compaction? {
        CompactionEdit(a, e, g);
        CompactionsAbsorbed(Edited(a, e), b, rest, g);
        assert [] + CompactionsLeftOut(rest) == CompactionsLeftOut(rest);
      } else {
        EditedAlike(a, b, e, g);
        CompactionsAbsorbed(Edited(a, e), Edited(b, e), rest, g);
        assert CompactionsLeftOut(edits)[1..] == CompactionsLeftOut(rest);
      }
    }
  }

  lemma CompactionEdit(es: seq<Entry>, e: Edit, g: Focus)
    requires e.Compaction? && NoNarrower(e.focus, g)
    ensures CompactedAll(Edited(es, e), g) == CompactedAll(es, g)
  {
    hide CompactedAll;
    CompactedTwice(es, e.focus, g);
  }

  /** Compacting after every round, whatever is added and exchanged in between, comes to the same as
      compacting once, at the end, provided no compaction on the way was wider than the last. */
  lemma CompactionAbsorbs(es: seq<Entry>, edits: seq<Edit>, g: Focus)
    requires forall e :: e in edits ==> WellMarked(e)
    requires forall e :: e in edits && e.Compaction? ==> NoNarrower(e.focus, g)
    ensures CompactedAll(EditedAll(es, edits), g) == CompactedAll(EditedAll(es, CompactionsLeftOut(edits)), g)
  {
    CompactionsAbsorbed(es, es, edits, g);
  }

  // ---- stalls ----

  /** The last message that is not a context banner. */
  function LastTurn(es: seq<Entry>): Option<Message> {
    if es == [] then None
    else if IsBanner(es[|es| - 1].message) then LastTurn(es[..|es| - 1])
    else Some(es[|es| - 1].message)
  }

  predicate Nudged(es: seq<Entry>) {
    LastTurn(es) == Some(User(STALL_NUDGE))
  }

  /** A round that stalled after `partial`: what it said is kept, and the model is asked to go on, unless
      it has just been. */
  function Stalled(es: seq<Entry>, partial: string, round: int): seq<Entry> {
    var said := if partial != "" then es + [Entry(Assistant(partial, []), round)] else es;
    if Nudged(said) then said else said + [Entry(User(STALL_NUDGE), round)]
  }

  lemma {:induction false} LastTurnWithout(es: seq<Entry>)
    ensures LastTurn(Without(es, IsContext)) == LastTurn(es)
  {
    if es != [] {
      var init, last := es[..|es| - 1], es[|es| - 1];
      LastTurnWithout(init);
      if !IsContext(last.message) {
        assert Without(es, IsContext)[..|Without(es, IsContext)| - 1] == Without(init, IsContext);
      } else {
        assert Without(es, IsContext) == Without(init, IsContext);
      }
    }
  }

  /** Nothing is lost in a stall: what was there stays, what was said is added, and then the nudge, unless nothing
      was said and the nudge is the last turn already. */
  lemma StalledAdds(es: seq<Entry>, partial: string, round: int)
    requires !("[EXECUTION STATE" <= partial)
    ensures Stalled(es, partial, round) == es
      + (if partial == "" then [] else [Entry(Assistant(partial, []), round)])
      + (if partial == "" && LastTurn(es) == Some(User("[SYSTEM: the connection stalled")) then []
         else [Entry(User("[SYSTEM: the connection stalled"), round)])
  {
    assert es + [] == es;
    assert (es + [Entry(Assistant(partial, []), round)])[..|es|] == es;
    assert forall u: seq<Entry> :: u + [] == u;
  }

  lemma StalledIsNudged(es: seq<Entry>, partial: string, round: int)
    ensures Nudged(Stalled(es, partial, round))
  {
    MarksAreDisjoint();
  }

  /** One more round of the same: a fresh context banner, then silence. */
  function SilentRound(es: seq<Entry>, block: string, round: int): seq<Entry> {
    Stalled(Replaced(es, IsContext, block, round), "", round)
  }

  function SilentRounds(es: seq<Entry>, blocks: seq<string>, round: int): seq<Entry>
    decreases |blocks|
  {
    if blocks == [] then es else SilentRounds(SilentRound(es, blocks[0], round), blocks[1..], round + 1)
  }

  /** However many rounds in a row stay silent, the conversation does not grow: after the first nudge only
      the context banner is exchanged. */
  lemma {:induction false} SilenceDoesNotPileUp(es: seq<Entry>, blocks: seq<string>, round: int)
    requires Nudged(es) && forall b :: b in blocks ==> IsContext(User(b))
    ensures Nudged(SilentRounds(es, blocks, round))
    ensures Without(SilentRounds(es, blocks, round), IsContext) == Without(es, IsContext)
    decreases |blocks|
  {
    hide Without, LastTurn;
    if blocks != [] {
      var r := Replaced(es, IsContext, blocks[0], round);
      ContextIsSkipped(es, blocks[0], round);
      assert SilentRound(es, blocks[0], round) == r;
      SilenceDoesNotPileUp(r, blocks[1..], round + 1);
    }
  }

  lemma ContextIsSkipped(es: seq<Entry>, block: string, round: int)
    requires IsContext(User(block))
    ensures var r := Replaced(es, IsContext, block, round);
      LastTurn(r) == LastTurn(es) && Without(r, IsContext) == Without(es, IsContext)
  {
    var kept := Without(es, IsContext);
    LastTurnWithout(es);
    assert (kept + [Entry(User(block), round)])[..|kept|] == kept;
    WithoutTwice(es, IsContext);
    assert kept + [] == kept;
  }

  lemma {:induction false} WithoutTwice(es: seq<Entry>, mark: Mark)
    ensures Without(Without(es, mark), mark) == Without(es, mark)
  {
    if es != [] {
      var init, last := es[..|es| - 1], es[|es| - 1];
      WithoutTwice(init, mark);
      if !mark(last.message) {
        assert (Without(init, mark) + [last])[..|Without(init, mark)|] == Without(init, mark);
      } else {
        assert Without(init, mark) + [] == Without(init, mark);
      }
    }
  }

  // ---- the program ----

  function Zip(messages: seq<Message>, rounds: seq<int>): (es: seq<Entry>)
    requires |messages| == |rounds|
    ensures |es| == |messages| && forall i :: 0 <= i < |es| ==> es[i] == Entry(messages[i], rounds[i])
  {
    seq(|messages|, i requires 0 <= i < |messages| => Entry(messages[i], rounds[i]))
  }

  lemma {:induction false} WithoutLeaves(es: seq<Entry>, mark: Mark)
    ensures forall e :: e in Without(es, mark) <==> e in es && !mark(e.message)
  {
    if es != [] {
      assert es == es[..|es| - 1] + [es[|es| - 1]];
      WithoutLeaves(es[..|es| - 1], mark);
    }
  }

  lemma WithoutNothing(mark: Mark)
    ensures Without([], mark) == []
  {
  }

  /** Looking at one more message from the back. */
  lemma WithoutStep(es: seq<Entry>, i: nat, mark: Mark)
    requires i < |es|
    ensures var now := es[..i + 1] + Without(es[i + 1..], mark);
      now[i] == es[i] && es[..i] + Without(es[i..], mark) == if mark(es[i].message) then now[..i] + now[i + 1..] else now
  {
    assert es[i..] == [es[i]] + es[i + 1..];
    WithoutCons(es[i], es[i + 1..], mark);
  }

  class Log {
    var messages: seq<Message>
    var rounds: seq<int>

    constructor ()
      ensures Valid() && View() == []
    {
      messages, rounds := [], [];
    }

    /** The two lists are index-matched. */
    ghost predicate Valid()
      reads this
    {
      |messages| == |rounds|
    }

    ghost function View(): seq<Entry>
      requires Valid()
      reads this
    {
      Zip(messages, rounds)
    }

    method Append(m: Message, round: int)
      requires Valid()
      modifies this
      ensures Valid() && View() == old(View()) + [Entry(m, round)]
    {
      messages := messages + [m];
      rounds := rounds + [round];
    }

    /** Deletes from the back, so that positions still to be looked at do not move. */
    method DeleteMarked(mark: Mark)
      requires Valid()
      modifies this
      ensures Valid() && View() == Without(old(View()), mark)
    {
      hide Without;
      ghost var before := View();
      var i := |messages|;
      assert before[..i] == before && before[i..] == [];
      assert Without(before[i..], mark) == [] by { WithoutNothing(mark); }
      while i > 0
        invariant 0 <= i <= |before| && Valid() && View() == before[..i] + Without(before[i..], mark)
      {
        i := i - 1;
        ghost var now := View();
        WithoutStep(before, i, mark);
        assert Entry(messages[i], rounds[i]) == now[i] == before[i];
        if mark(messages[i]) {
          messages := messages[..i] + messages[i + 1..];
          rounds := rounds[..i] + rounds[i + 1..];
          assert View() == now[..i] + now[i + 1..];
        }
      }
      assert before[0..] == before && View() == Without(before, mark);
    }

    method ApplyTaskContext(block: string, round: int)
      requires Valid()
      modifies this
      ensures Valid() && View() == Replaced(old(View()), IsContext, block, round)
      ensures messages != [] && messages[|messages| - 1] == User(block) && rounds[|messages| - 1] == round
      ensures forall i :: 0 <= i < |messages| - 1 ==> !(messages[i].User? && "[EXECUTION STATE" <= messages[i].text)
    {
      WithoutLeaves(View(), IsContext);
      DeleteMarked(IsContext);
      Append(User(block), round);
    }

    method ReplaceDirective(text: string, round: int)
      requires Valid()
      modifies this
      ensures Valid() && View() == Replaced(old(View()), IsDirective, text, round)
      ensures messages != [] && messages[|messages| - 1] == User(text) && rounds[|messages| - 1] == round
      ensures forall i :: 0 <= i < |messages| - 1 ==>
        !(messages[i].User?
          && ("[SYSTEM: that round was stopped" <= messages[i].text || "[SYSTEM: planning for this task" <= messages[i].text))
    {
      WithoutLeaves(View(), IsDirective);
      DeleteMarked(IsDirective);
      Append(User(text), round);
    }

    method RecordToolRound(text: string, calls: seq<Call>, outcomes: seq<Outcome>, note: Option<string>, round: int)
      requires Valid() && |calls| == |outcomes|
      modifies this
      ensures Valid() && View() == old(View()) + ToolRound(text, calls, outcomes, note, round)
      ensures View() == old(View()) + ([Entry(Assistant(text, calls), round)] + ResultEntries(calls, outcomes, round)
        + if note.Some? then [Entry(User(note.value), round)] else [])
    {
      Append(Assistant(text, calls), round);
      ghost var start := View();
      for k := 0 to |calls|
        invariant Valid() && View() == start + ResultEntries(calls[..k], outcomes[..k], round)
      {
        assert calls[..k + 1][..k] == calls[..k] && outcomes[..k + 1][..k] == outcomes[..k];
        Append(ToolResult(calls[k].id, calls[k].name, outcomes[k].text), round);
        if outcomes[k].shown {
          Append(Picture, round);
        }
      }
      assert calls[..|calls|] == calls && outcomes[..|outcomes|] == outcomes;
      if note.Some? {
        Append(User(note.value), round);
      }
    }

    method RecordStall(partial: string, round: int)
      requires Valid()
      modifies this
      ensures Valid() && View() == Stalled(old(View()), partial, round)
    {
      if partial != "" {
        Append(Assistant(partial, []), round);
      }
      var nudged := AlreadyNudged();
      if !nudged {
        Append(User(STALL_NUDGE), round);
      }
    }

    method AlreadyNudged() returns (nudged: bool)
      requires Valid()
      ensures nudged == Nudged(View())
    {
      var i := |messages|;
      assert View()[..i] == View();
      while i > 0
        invariant 0 <= i <= |messages| && LastTurn(View()) == LastTurn(View()[..i])
      {
        i := i - 1;
        assert View()[..i + 1][..i] == View()[..i];
        if !IsBanner(messages[i]) {
          return messages[i] == User(STALL_NUDGE);
        }
      }
      return false;
    }

    method CompactStalePayloads(f: Focus)
      requires Valid()
      modifies this
      ensures Valid() && View() == CompactedAll(old(View()), f)
      ensures rounds == old(rounds)
    {
      ghost var before := View();
      for i := 0 to |messages|
        invariant |messages| == |before| && Valid() && rounds == old(rounds)
        invariant forall k :: 0 <= k < |messages| ==>
          messages[k] == if k < i then Compacted(before[k].message, before[k].round, f) else before[k].message
      {
        messages := messages[i := Compacted(messages[i], rounds[i], f)];
      }
    }
  }
}
