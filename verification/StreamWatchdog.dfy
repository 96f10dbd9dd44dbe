/** The stream watchdog: a producer thread pulls chunks from the provider into a queue, the consumer
    takes them out, gives up after a silence, or is abandoned by its caller. A run is any interleaving of
    the steps the two threads can take. */
module StreamWatchdog {

  /** What the provider would send if it were read to the end. */
  datatype Source = Source(chunks: seq<string>, error: Failure)

  datatype Failure = NoFailure | Failure(what: string)

  datatype Message = Item(chunk: string) | Done | Error(what: string) {
    predicate Last() { Done? || Error? }
  }

  /** Where the producer is: asking for the next chunk, holding one it has yet to check the stop flag for,
      about to enqueue it, about to enqueue its last message, or gone. */
  datatype Producer = Pulling | Holding(chunk: string) | Putting(chunk: string) | Ending(message: Message) | Gone

  datatype Consumer = Reading | Returned | Raised(what: string) | TimedOut | Abandoned

  /** `delivered` is what the caller has seen; `late` counts the chunks enqueued after the stop flag. */
  datatype State = State(
    producer: Producer, pulled: nat, put: nat, queue: seq<Message>, consumer: Consumer, delivered: seq<string>,
    stop: bool, closed: bool, late: nat)

  datatype Step =
    | Pull(interrupted: bool)   // a closed stream may break the pending read
    | Check
    | Put
    | End
    | Get
    | Timeout
    | Abandon
    | SetStop
    | Close

  const Start: State := State(Pulling, 0, 0, [], Reading, [], false, false, 0)

  predicate Enabled(s: State, step: Step) {
    match step
    case Pull(interrupted) => s.producer.Pulling? && (interrupted ==> s.closed)
    case Check => s.producer.Holding?
    case Put => s.producer.Putting?
    case End => s.producer.Ending?
    case Get => s.consumer.Reading? && s.queue != []
    case Timeout => s.consumer.Reading? && s.queue == []
    case Abandon => s.consumer.Reading?
    case SetStop => !s.consumer.Reading? && !s.stop
    case Close => s.stop && !s.closed
  }

  function Next(source: Source, s: State, step: Step): State
    requires Enabled(s, step)
  {
    match step
    case Pull(interrupted) =>
      if interrupted then s.(producer := Ending(Error("stream closed")))
      else if s.pulled < |source.chunks| then s.(producer := Holding(source.chunks[s.pulled]), pulled := s.pulled + 1)
      else s.(producer := Ending(if source.error.NoFailure? then Done else Error(source.error.what)))
    case Check => s.(producer := if s.stop then Gone else Putting(s.producer.chunk))
    case Put =>
      s.(producer := Pulling, put := s.put + 1, queue := s.queue + [Item(s.producer.chunk)],
         late := if s.stop then s.late + 1 else s.late)
    case End => s.(producer := Gone, queue := s.queue + [s.producer.message])
    case Get =>
      (match s.queue[0]
       case Item(chunk) => s.(queue := s.queue[1..], delivered := s.delivered + [chunk])
       case Done => s.(queue := s.queue[1..], consumer := Returned)
       case Error(what) => s.(queue := s.queue[1..], consumer := Raised(what)))
    case Timeout => s.(consumer := TimedOut)
    case Abandon => s.(consumer := Abandoned)
    case SetStop => s.(stop := true)
    case Close => s.(closed := true)
  }

  predicate Runs(source: Source, s: State, steps: seq<Step>)
    decreases |steps|
  {
    steps == [] || (Enabled(s, steps[0]) && Runs(source, Next(source, s, steps[0]), steps[1..]))
  }

  function After(source: Source, s: State, steps: seq<Step>): State
    requires Runs(source, s, steps)
    decreases |steps|
  {
    if steps == [] then s else After(source, Next(source, s, steps[0]), steps[1..])
  }

  // ---- the invariant ----

  function Chunks(queue: seq<Message>): seq<string> {
    if queue == [] then []
    else (if queue[0].Item? then [queue[0].chunk] else []) + Chunks(queue[1..])
  }

  lemma {:induction false} ChunksConcat(queue: seq<Message>, m: Message)
    ensures Chunks(queue + [m]) == Chunks(queue) + if m.Item? then [m.chunk] else []
  {
    if queue == [] {
      assert [m][1..] == [];
    } else {
      assert (queue + [m])[1..] == queue[1..] + [m];
      ChunksConcat(queue[1..], m);
      var head := if queue[0].Item? then [queue[0].chunk] else [];
      var last := if m.Item? then [m.chunk] else [];
      assert Chunks(queue + [m]) == head + Chunks(queue[1..] + [m]);
      assert head + (Chunks(queue[1..]) + last) == (head + Chunks(queue[1..])) + last;
    }
  }

  /** The last message says how the source really ended, unless the stream was closed under it. */
  predicate Truthful(source: Source, s: State, m: Message) {
    && (m.Done? ==> s.put == |source.chunks| && source.error.NoFailure?)
    && (m.Error? ==> s.closed || (s.put == |source.chunks| && source.error == Failure(m.what)))
  }

  ghost predicate QueueInv(source: Source, s: State) {
    && s.put <= |source.chunks| && s.delivered + Chunks(s.queue) == source.chunks[..s.put]
    && (forall i :: 0 <= i < |s.queue| ==> Truthful(source, s, s.queue[i]))
    && (forall i :: 0 <= i < |s.queue| && s.queue[i].Last() ==> i == |s.queue| - 1 && s.producer.Gone?)
  }

  ghost predicate ProducerInv(source: Source, s: State) {
    && s.pulled <= |source.chunks|
    && (s.producer.Pulling? ==> s.pulled == s.put)
    && (s.producer.Holding? || s.producer.Putting? ==> s.pulled == s.put + 1 && s.producer.chunk == source.chunks[s.put])
    && (s.producer.Ending? ==> s.pulled == s.put && s.producer.message.Last() && Truthful(source, s, s.producer.message))
    && (s.producer.Gone? && s.consumer.Reading? ==> s.queue != [] && s.queue[|s.queue| - 1].Last())
  }

  ghost predicate ConsumerInv(source: Source, s: State) {
    && (s.consumer.Reading? ==> !s.stop) && (s.closed ==> s.stop)
    && (s.consumer.Returned? ==> s.delivered == source.chunks && source.error.NoFailure?)
    && (s.consumer.Raised? ==> s.delivered == source.chunks && source.error == Failure(s.consumer.what))
    && s.late + (if s.stop && s.producer.Putting? then 1 else 0) <= 1
    && (!s.stop ==> s.late == 0)
  }

  ghost predicate Inv(source: Source, s: State) {
    QueueInv(source, s) && ProducerInv(source, s) && ConsumerInv(source, s)
  }

  lemma PutKeeps(source: Source, s: State)
    requires Inv(source, s) && s.producer.Putting?
    ensures Inv(source, Next(source, s, Put))
  {
    var s' := Next(source, s, Put);
    ChunksConcat(s.queue, Item(s.producer.chunk));
    hide Chunks;
    assert source.chunks[..s.put + 1] == source.chunks[..s.put] + [source.chunks[s.put]];
    assert s'.delivered + Chunks(s'.queue) == (s.delivered + Chunks(s.queue)) + [s.producer.chunk];
    assert forall i :: 0 <= i < |s.queue| ==> s'.queue[i] == s.queue[i] && !s.queue[i].Last();
  }

  lemma EndKeeps(source: Source, s: State)
    requires Inv(source, s) && s.producer.Ending?
    ensures Inv(source, Next(source, s, End))
  {
    var s' := Next(source, s, End);
    ChunksConcat(s.queue, s.producer.message);
    hide Chunks;
    assert Chunks(s.queue) + [] == Chunks(s.queue);
    assert forall i :: 0 <= i < |s.queue| ==> s'.queue[i] == s.queue[i] && !s.queue[i].Last();
  }

  /** What the messages behind the first say is not changed by taking it. */
  lemma StillTruthful(source: Source, s: State)
    requires QueueInv(source, s) && s.consumer.Reading? && s.queue != []
    ensures var s' := Next(source, s, Get);
      forall i :: 0 <= i < |s'.queue| ==> s'.queue[i] == s.queue[i + 1] && Truthful(source, s', s'.queue[i])
  {
    hide Chunks;
    var s' := Next(source, s, Get);
    forall i | 0 <= i < |s'.queue| ensures s'.queue[i] == s.queue[i + 1] && Truthful(source, s', s'.queue[i]) {
      assert Truthful(source, s, s.queue[i + 1]);
    }
  }

  /** Taking a chunk moves it from the queue to what the caller has seen. */
  lemma GetMovesChunk(source: Source, s: State)
    requires s.consumer.Reading? && s.queue != []
    ensures var s' := Next(source, s, Get); s'.delivered + Chunks(s'.queue) == s.delivered + Chunks(s.queue)
  {
    var s', m := Next(source, s, Get), s.queue[0];
    var head := if m.Item? then [m.chunk] else [];
    assert Chunks(s.queue) == head + Chunks(s'.queue);
    hide Chunks;
    assert s'.delivered == s.delivered + head;
    assert (s.delivered + head) + Chunks(s'.queue) == s.delivered + (head + Chunks(s'.queue));
  }

  lemma LastIsAlone(source: Source, s: State)
    requires QueueInv(source, s) && s.queue != [] && s.queue[0].Last()
    ensures |s.queue| == 1 && s.delivered == source.chunks[..s.put]
  {
    hide Truthful;
    assert Chunks(s.queue) == [] && s.delivered + [] == s.delivered;
  }

  lemma GetKeepsQueue(source: Source, s: State)
    requires QueueInv(source, s) && s.consumer.Reading? && s.queue != []
    ensures QueueInv(source, Next(source, s, Get))
    ensures s.queue[0].Last() ==> |s.queue| == 1 && s.delivered == source.chunks[..s.put]
  {
    StillTruthful(source, s);
    GetMovesChunk(source, s);
    if s.queue[0].Last() {
      LastIsAlone(source, s);
    }
    hide Truthful, Chunks;
  }

  lemma GetKeeps(source: Source, s: State)
    requires Inv(source, s) && s.consumer.Reading? && s.queue != []
    ensures Inv(source, Next(source, s, Get))
  {
    assert Truthful(source, s, s.queue[0]);
    GetKeepsQueue(source, s);
    hide QueueInv;
    assert source.chunks[..|source.chunks|] == source.chunks;
  }

  lemma StepKeeps(source: Source, s: State, step: Step)
    requires Inv(source, s) && Enabled(s, step)
    ensures Inv(source, Next(source, s, step))
  {
    match step {
      case Put => PutKeeps(source, s);
      case End => EndKeeps(source, s);
      case Get => GetKeeps(source, s);
      case _ =>
    }
  }

  lemma {:induction false} RunKeeps(source: Source, s: State, steps: seq<Step>)
    requires Inv(source, s) && Runs(source, s, steps)
    ensures Inv(source, After(source, s, steps))
    decreases |steps|
  {
    hide Inv, Enabled, Next;
    if steps != [] {
      StepKeeps(source, s, steps[0]);
      RunKeeps(source, Next(source, s, steps[0]), steps[1..]);
    }
  }

  // ---- what every interleaving guarantees ----

  /** The caller sees a prefix of the provider's chunks, in order, each once. A normal return means all of
      them were seen and the provider ended normally; an error means all were seen and it is the
      provider's own. Once the stop flag is up, at most one more chunk is enqueued. */
  lemma EveryInterleaving(source: Source, steps: seq<Step>)
    requires Runs(source, Start, steps)
    ensures var s := After(source, Start, steps);
      && s.delivered <= source.chunks
      && (s.consumer.Returned? ==> s.delivered == source.chunks && source.error.NoFailure?)
      && (s.consumer.Raised? ==> s.delivered == source.chunks && source.error == Failure(s.consumer.what))
      && s.late <= 1
  {
    RunKeeps(source, Start, steps);
  }

  /** As long as the consumer reads, it can take a message or the producer can make progress: only a
      provider that stays silent makes it wait. */
  lemma NeverDeadlocked(source: Source, steps: seq<Step>)
    requires Runs(source, Start, steps) && After(source, Start, steps).consumer.Reading?
    ensures var s := After(source, Start, steps);
      Enabled(s, Get) || Enabled(s, Pull(false)) || Enabled(s, Check) || Enabled(s, Put) || Enabled(s, End)
  {
    RunKeeps(source, Start, steps);
  }

  /** A timeout comes only in silence: whatever the producer had enqueued by then, the caller has seen. */
  lemma TimeoutLosesNothing(source: Source, steps: seq<Step>)
    requires Runs(source, Start, steps) && Enabled(After(source, Start, steps), Timeout)
    ensures var s := After(source, Start, steps); s.put <= |source.chunks| && s.delivered == source.chunks[..s.put]
  {
    RunKeeps(source, Start, steps);
    var s := After(source, Start, steps);
    assert s.queue == [] && Chunks([]) == [] && s.delivered + [] == s.delivered;
  }

  function Puts(steps: seq<Step>): nat {
    if steps == [] then 0 else (if steps[0].Put? then 1 else 0) + Puts(steps[1..])
  }

  lemma {:induction false} StoppedPuts(source: Source, s: State, steps: seq<Step>)
    requires s.stop && Runs(source, s, steps)
    ensures Puts(steps) <= if s.producer.Putting? then 1 else 0
    decreases |steps|
  {
    if steps != [] {
      StoppedPuts(source, Next(source, s, steps[0]), steps[1..]);
    }
  }

  /** After the stop flag goes up the producer enqueues at most one more chunk, however long it goes on. */
  lemma StopTakesEffect(source: Source, s: State, steps: seq<Step>)
    requires Enabled(s, SetStop) && Runs(source, Next(source, s, SetStop), steps)
    ensures Puts(steps) <= 1
  {
    StoppedPuts(source, Next(source, s, SetStop), steps);
  }

  /** Steps still to be taken before the consumer of a responsive provider is finished. */
  function Remaining(source: Source, s: State): int {
    3 * (|source.chunks| - s.pulled)
    + (match s.producer case Pulling => 2 case Holding(_) => 4 case Putting(_) => 3 case Ending(_) => 1 case Gone => 0)
    + (|source.chunks| - |s.delivered|) + (if s.consumer.Reading? then 1 else 0)
  }

  /** Without timeouts or an abandoning caller every step brings the end closer. */
  lemma StepIsSpent(source: Source, s: State, step: Step)
    requires Inv(source, s) && s.consumer.Reading? && Enabled(s, step) && !step.Timeout? && !step.Abandon?
    ensures 0 <= Remaining(source, Next(source, s, step)) < Remaining(source, s)
  {
    StepKeeps(source, s, step);
    var s' := Next(source, s, step);
    assert |s'.delivered| + |Chunks(s'.queue)| == s'.put;
  }

  lemma {:induction false} FinishedStays(source: Source, s: State, steps: seq<Step>)
    requires Runs(source, s, steps) && !s.consumer.Reading?
    ensures !After(source, s, steps).consumer.Reading?
    decreases |steps|
  {
    if steps != [] {
      FinishedStays(source, Next(source, s, steps[0]), steps[1..]);
    }
  }

  lemma {:induction false} StepsAreSpent(source: Source, s: State, steps: seq<Step>)
    requires Inv(source, s) && Runs(source, s, steps) && After(source, s, steps).consumer.Reading?
    requires Timeout !in steps && Abandon !in steps
    ensures |steps| < Remaining(source, s)
    decreases |steps|
  {
    if steps == [] {
      assert |s.delivered| + |Chunks(s.queue)| == s.put;
    } else {
      if !s.consumer.Reading? {
        FinishedStays(source, s, steps);
      }
      hide Inv, Remaining, Enabled, Next;
      StepKeeps(source, s, steps[0]);
      StepIsSpent(source, s, steps[0]);
      StepsAreSpent(source, Next(source, s, steps[0]), steps[1..]);
    }
  }

  /** So in every interleaving without a timeout or an abandoning caller the consumer of n chunks is finished
      after at most 4n + 3 steps of the two threads: it does not read any longer after that many. */
  lemma ConsumerFinishes(source: Source, steps: seq<Step>)
    requires Runs(source, Start, steps) && Timeout !in steps && Abandon !in steps
    ensures After(source, Start, steps).consumer.Reading? ==> |steps| < 4 * |source.chunks| + 3
  {
    if After(source, Start, steps).consumer.Reading? {
      StepsAreSpent(source, Start, steps);
    }
  }
}
