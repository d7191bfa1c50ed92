/** A pipeline of stages joined by queues, each stage on its own thread.

    Stage 0 is the source, stage |fs| + 1 the sink, and stage k between them applies fs[k - 1] to
    every line it pops and pushes the lines that result.  One action is one critical section of a
    queue; a thread that waits on a queue's condition may also wake for no reason. */
module Pipeline {

  type Line = string
  type Stages = seq<Line -> seq<Line>>

  datatype Queue = Queue(items: seq<Line>, stop: bool)

  /** Where a stage's thread is; `Emitting` carries the lines it has still to push. */
  datatype Pc = Emitting(out: seq<Line>) | Popping | Waiting | Stopping | Finished

  datatype State = State(stages: seq<Pc>, queues: seq<Queue>, consumed: seq<Line>)

  predicate Sized(fs: Stages, s: State) {
    |s.queues| == |fs| + 1 && |s.stages| == |fs| + 2
  }

  ghost predicate Shaped(fs: Stages, s: State) {
    && Sized(fs, s)
    && (s.stages[0].Emitting? || s.stages[0] == Stopping || s.stages[0] == Finished)
    && !s.stages[|fs| + 1].Emitting? && s.stages[|fs| + 1] != Stopping
  }

  // ---- the steps ----

  function Woken(pc: Pc): Pc {
    if pc == Waiting then Popping else pc
  }

  predicate CanPush(fs: Stages, s: State, k: nat) {
    k <= |fs| && k < |s.queues| && k + 1 < |s.stages| && s.stages[k].Emitting? && s.stages[k].out != []
  }

  /** queue_front::push, with its notify_one. */
  function Push(fs: Stages, s: State, k: nat): State
    requires CanPush(fs, s, k)
  {
    var q, out := s.queues[k], s.stages[k].out;
    s.(queues := s.queues[k := q.(items := q.items + [out[0]])],
       stages := s.stages[k := Emitting(out[1..])][k + 1 := Woken(s.stages[k + 1])])
  }

  predicate CanTurn(s: State, k: nat) {
    k < |s.stages| && s.stages[k] == Emitting([])
  }

  /** All pushed: the source is at its end, another stage goes on to its next line. */
  function Turn(s: State, k: nat): State
    requires CanTurn(s, k)
  {
    s.(stages := s.stages[k := if k == 0 then Stopping else Popping])
  }

  predicate CanPop(s: State, k: nat) {
    0 < k < |s.stages| && k <= |s.queues| && s.stages[k] == Popping
  }

  /** queue_back::pop, as far as its return or its wait. */
  function Pop(fs: Stages, s: State, k: nat): State
    requires CanPop(s, k)
  {
    var q := s.queues[k - 1];
    if q.items != [] then
      var s' := s.(queues := s.queues[k - 1 := q.(items := q.items[1..])]);
      if k <= |fs| then s'.(stages := s.stages[k := Emitting(fs[k - 1](q.items[0]))])
      else s'.(consumed := s.consumed + [q.items[0]])
    else if !q.stop then s.(stages := s.stages[k := Waiting])
    else s.(stages := s.stages[k := if k <= |fs| then Stopping else Finished])
  }

  predicate CanStop(s: State, k: nat) {
    k < |s.queues| && k + 1 < |s.stages| && s.stages[k] == Stopping
  }

  /** queue_front::stop, with its notify_one. */
  function Stop(s: State, k: nat): State
    requires CanStop(s, k)
  {
    s.(queues := s.queues[k := s.queues[k].(stop := true)],
       stages := s.stages[k := Finished][k + 1 := Woken(s.stages[k + 1])])
  }

  predicate CanWake(s: State, k: nat) {
    k < |s.stages| && s.stages[k] == Waiting
  }

  function Wake(s: State, k: nat): State
    requires CanWake(s, k)
  {
    s.(stages := s.stages[k := Popping])
  }

  /** A step of stage `k` that is not a spurious wake-up. */
  predicate Productive(fs: Stages, s: State, k: nat, s': State) {
    || (CanPush(fs, s, k) && s' == Push(fs, s, k))
    || (CanTurn(s, k) && s' == Turn(s, k))
    || (CanPop(s, k) && s' == Pop(fs, s, k))
    || (CanStop(s, k) && s' == Stop(s, k))
  }

  ghost predicate Works(fs: Stages, s: State, s': State) {
    exists k :: Productive(fs, s, k, s')
  }

  ghost predicate Wakes(s: State, s': State) {
    exists k :: CanWake(s, k) && s' == Wake(s, k)
  }

  ghost predicate Next(fs: Stages, s: State, s': State) {
    Works(fs, s, s') || Wakes(s, s')
  }

  ghost predicate Init(fs: Stages, s: State, input: seq<Line>) {
    && Shaped(fs, s) && s.stages[0] == Emitting(input) && s.consumed == []
    && (forall k :: 0 < k < |s.stages| ==> s.stages[k] == Popping)
    && (forall k :: 0 <= k < |s.queues| ==> s.queues[k] == Queue([], false))
  }

  ghost predicate IsRun(fs: Stages, run: seq<State>, input: seq<Line>) {
    && |run| > 0 && Init(fs, run[0], input)
    && forall i {:trigger Next(fs, run[i - 1], run[i])} :: 0 < i < |run| ==> Next(fs, run[i - 1], run[i])
  }

  // ---- what is still to come ----

  function FlatMap(f: Line -> seq<Line>, xs: seq<Line>): seq<Line> {
    if xs == [] then [] else f(xs[0]) + FlatMap(f, xs[1..])
  }

  /** The first k stages applied one after the other. */
  function Compose(fs: Stages, k: nat, input: seq<Line>): seq<Line>
    requires k <= |fs|
  {
    if k == 0 then input else FlatMap(fs[k - 1], Compose(fs, k - 1, input))
  }

  function Unpushed(pc: Pc): seq<Line> {
    if pc.Emitting? then pc.out else []
  }

  /** `streams[k]` is everything that queue k holds or will ever receive: what it holds, what stage k
      has still to push, and what stage k will make of its own input. */
  ghost predicate IsStream(fs: Stages, s: State, streams: seq<seq<Line>>, k: nat)
    requires k <= |fs| && Sized(fs, s) && |streams| == |fs| + 1
  {
    streams[k] == s.queues[k].items + Unpushed(s.stages[k]) + if k == 0 then [] else FlatMap(fs[k - 1], streams[k - 1])
  }

  // ---- the invariant ----

  /** A stage sleeps only while its queue is empty and not stopped; it leaves its loop only when its
      queue is stopped and drained; its output is stopped when it has finished. */
  ghost predicate StageOk(fs: Stages, s: State, k: nat)
    requires Shaped(fs, s) && k < |s.stages|
  {
    && (s.stages[k] == Waiting ==> k > 0 && s.queues[k - 1] == Queue([], false))
    && ((s.stages[k] == Stopping || s.stages[k] == Finished) && k > 0 ==> s.queues[k - 1] == Queue([], true))
    && (k <= |fs| ==> (s.stages[k] == Finished <==> s.queues[k].stop))
  }

  ghost predicate Flows(fs: Stages, s: State, streams: seq<seq<Line>>, input: seq<Line>) {
    && Sized(fs, s) && |streams| == |fs| + 1
    && (forall k :: 0 <= k <= |fs| ==> IsStream(fs, s, streams, k))
    && s.consumed + streams[|fs|] == Compose(fs, |fs|, input)
  }

  ghost predicate Inv(fs: Stages, s: State, streams: seq<seq<Line>>, input: seq<Line>) {
    Shaped(fs, s) && StagesOk(fs, s) && Flows(fs, s, streams, input)
  }

  lemma HeadMoves(q: seq<Line>, out: seq<Line>)
    requires out != []
    ensures q + [out[0]] + out[1..] == q + out
  {
  }

  /** A push moves a line within its stream. */
  lemma PushFlows(fs: Stages, s: State, streams: seq<seq<Line>>, input: seq<Line>, k: nat)
    requires Shaped(fs, s) && Flows(fs, s, streams, input) && CanPush(fs, s, k)
    ensures Flows(fs, Push(fs, s, k), streams, input)
  {
    var s' := Push(fs, s, k);
    HeadMoves(s.queues[k].items, s.stages[k].out);
    forall i | 0 <= i <= |fs| ensures IsStream(fs, s', streams, i) {
      assert IsStream(fs, s, streams, i);
    }
  }

  lemma TailOf(q: seq<Line>, out: seq<Line>, rest: seq<Line>)
    requires q != []
    ensures (q + out + rest)[0] == q[0] && (q + out + rest)[1..] == q[1..] + out + rest
  {
  }

  /** Taking the first item of a queue takes the first line of its stream. */
  lemma HeadOfStream(fs: Stages, s: State, streams: seq<seq<Line>>, j: nat)
    requires j <= |fs| && Sized(fs, s) && |streams| == |fs| + 1 && IsStream(fs, s, streams, j) && s.queues[j].items != []
    ensures var q := s.queues[j].items;
      && streams[j] != [] && streams[j][0] == q[0]
      && streams[j][1..] == q[1..] + Unpushed(s.stages[j]) + if j == 0 then [] else FlatMap(fs[j - 1], streams[j - 1])
  {
    TailOf(s.queues[j].items, Unpushed(s.stages[j]), if j == 0 then [] else FlatMap(fs[j - 1], streams[j - 1]));
  }

  /** A pop takes the first line of a stream. */
  function AfterPop(streams: seq<seq<Line>>, j: nat): (r: seq<seq<Line>>)
    requires j < |streams|
    ensures |r| == |streams|
  {
    if streams[j] == [] then streams else streams[j := streams[j][1..]]
  }

  lemma MoveLine(q: seq<Line>, out: seq<Line>, rest: seq<Line>)
    ensures q + [] + (out + rest) == q + out + rest
  {
  }

  lemma StreamUntouched(fs: Stages, s: State, s': State, streams: seq<seq<Line>>, streams': seq<seq<Line>>, i: nat)
    requires Sized(fs, s) && Sized(fs, s') && |streams| == |streams'| == |fs| + 1 && i <= |fs| && IsStream(fs, s, streams, i)
    requires s'.queues[i].items == s.queues[i].items && Unpushed(s'.stages[i]) == Unpushed(s.stages[i])
    requires streams'[i] == streams[i] && (i > 0 ==> streams'[i - 1] == streams[i - 1])
    ensures IsStream(fs, s', streams', i)
  {
  }

  lemma PopInput(fs: Stages, s: State, streams: seq<seq<Line>>, k: nat)
    requires Shaped(fs, s) && |streams| == |fs| + 1 && CanPop(s, k) && k <= |fs| && s.queues[k - 1].items != []
    requires IsStream(fs, s, streams, k - 1)
    ensures streams[k - 1] != [] && streams[k - 1][0] == s.queues[k - 1].items[0]
    ensures AfterPop(streams, k - 1)[k - 1] == streams[k - 1][1..]
    ensures IsStream(fs, Pop(fs, s, k), AfterPop(streams, k - 1), k - 1)
  {
    HeadOfStream(fs, s, streams, k - 1);
  }

  lemma PopOutput(fs: Stages, s: State, streams: seq<seq<Line>>, streams': seq<seq<Line>>, k: nat)
    requires Shaped(fs, s) && |streams| == |streams'| == |fs| + 1 && CanPop(s, k) && k <= |fs| && s.queues[k - 1].items != []
    requires streams[k - 1] != [] && streams[k - 1][0] == s.queues[k - 1].items[0]
    requires streams'[k - 1] == streams[k - 1][1..] && streams'[k] == streams[k]
    requires IsStream(fs, s, streams, k)
    ensures IsStream(fs, Pop(fs, s, k), streams', k)
  {
    MoveLine(s.queues[k].items, fs[k - 1](streams[k - 1][0]), FlatMap(fs[k - 1], streams[k - 1][1..]));
  }

  lemma PopStreamAt(fs: Stages, s: State, streams: seq<seq<Line>>, k: nat, i: nat)
    requires Shaped(fs, s) && |streams| == |fs| + 1 && CanPop(s, k) && k <= |fs| && s.queues[k - 1].items != [] && i <= |fs|
    requires IsStream(fs, s, streams, k - 1) && IsStream(fs, s, streams, i)
    ensures IsStream(fs, Pop(fs, s, k), AfterPop(streams, k - 1), i)
  {
    PopInput(fs, s, streams, k);
    if i == k {
      PopOutput(fs, s, streams, AfterPop(streams, k - 1), k);
    } else if i != k - 1 {
      StreamUntouched(fs, s, Pop(fs, s, k), streams, AfterPop(streams, k - 1), i);
    }
  }

  /** A pop by an inner stage turns the first line of its input stream into its next output. */
  lemma PopFlows(fs: Stages, s: State, streams: seq<seq<Line>>, input: seq<Line>, k: nat)
    requires Shaped(fs, s) && Flows(fs, s, streams, input) && CanPop(s, k) && k <= |fs| && s.queues[k - 1].items != []
    ensures Flows(fs, Pop(fs, s, k), AfterPop(streams, k - 1), input)
  {
    var s', streams' := Pop(fs, s, k), AfterPop(streams, k - 1);
    assert IsStream(fs, s, streams, k - 1);
    forall i | 0 <= i <= |fs| ensures IsStream(fs, s', streams', i) {
      assert IsStream(fs, s, streams, i);
      PopStreamAt(fs, s, streams, k, i);
    }
  }

  lemma ConsumeFlows(fs: Stages, s: State, streams: seq<seq<Line>>, input: seq<Line>)
    requires Shaped(fs, s) && Flows(fs, s, streams, input) && CanPop(s, |fs| + 1) && s.queues[|fs|].items != []
    ensures Flows(fs, Pop(fs, s, |fs| + 1), AfterPop(streams, |fs|), input)
  {
    var s', streams' := Pop(fs, s, |fs| + 1), AfterPop(streams, |fs|);
    assert IsStream(fs, s, streams, |fs|);
    HeadOfStream(fs, s, streams, |fs|);
    forall i | 0 <= i <= |fs| ensures IsStream(fs, s', streams', i) {
      assert IsStream(fs, s, streams, i);
    }
    assert s'.consumed + streams'[|fs|] == s.consumed + streams[|fs|];
  }

  /** A step that moves no line. */
  lemma IdleFlows(fs: Stages, s: State, streams: seq<seq<Line>>, input: seq<Line>, s': State)
    requires Flows(fs, s, streams, input) && Sized(fs, s') && s'.consumed == s.consumed
    requires forall i :: 0 <= i <= |fs| ==> s'.queues[i].items == s.queues[i].items && Unpushed(s'.stages[i]) == Unpushed(s.stages[i])
    ensures Flows(fs, s', streams, input)
  {
    forall i | 0 <= i <= |fs| ensures IsStream(fs, s', streams, i) {
      assert IsStream(fs, s, streams, i);
    }
  }

  lemma FlowKept(fs: Stages, s: State, streams: seq<seq<Line>>, input: seq<Line>, k: nat, s': State)
    returns (streams': seq<seq<Line>>)
    requires Shaped(fs, s) && Flows(fs, s, streams, input)
    requires Productive(fs, s, k, s') || (CanWake(s, k) && s' == Wake(s, k))
    ensures Flows(fs, s', streams', input)
  {
    streams' := streams;
    if CanPush(fs, s, k) {
      PushFlows(fs, s, streams, input, k);
    } else if CanPop(s, k) && s.queues[k - 1].items != [] {
      if k <= |fs| {
        PopFlows(fs, s, streams, input, k);
      } else {
        ConsumeFlows(fs, s, streams, input);
      }
      streams' := AfterPop(streams, k - 1);
    } else {
      IdleFlows(fs, s, streams, input, s');
    }
  }

  ghost predicate StagesOk(fs: Stages, s: State)
    requires Shaped(fs, s)
  {
    forall k :: 0 <= k < |s.stages| ==> StageOk(fs, s, k)
  }

  lemma PushStages(fs: Stages, s: State, k: nat, i: nat)
    requires Shaped(fs, s) && StagesOk(fs, s) && CanPush(fs, s, k) && i < |s.stages|
    ensures Shaped(fs, Push(fs, s, k)) && StageOk(fs, Push(fs, s, k), i)
  {
    assert StageOk(fs, s, i) && StageOk(fs, s, k);
  }

  lemma PopStages(fs: Stages, s: State, k: nat, i: nat)
    requires Shaped(fs, s) && StagesOk(fs, s) && CanPop(s, k) && i < |s.stages|
    ensures Shaped(fs, Pop(fs, s, k)) && StageOk(fs, Pop(fs, s, k), i)
  {
    assert StageOk(fs, s, i) && StageOk(fs, s, k);
  }

  lemma StopStages(fs: Stages, s: State, k: nat, i: nat)
    requires Shaped(fs, s) && StagesOk(fs, s) && CanStop(s, k) && i < |s.stages|
    ensures Shaped(fs, Stop(s, k)) && StageOk(fs, Stop(s, k), i)
  {
    assert StageOk(fs, s, i) && StageOk(fs, s, k);
  }

  lemma StagesKept(fs: Stages, s: State, k: nat, s': State)
    requires Shaped(fs, s) && StagesOk(fs, s) && (Productive(fs, s, k, s') || (CanWake(s, k) && s' == Wake(s, k)))
    ensures Shaped(fs, s') && StagesOk(fs, s')
  {
    forall i | 0 <= i < |s.stages| ensures Shaped(fs, s') && StageOk(fs, s', i) {
      if CanPush(fs, s, k) {
        PushStages(fs, s, k, i);
      } else if CanPop(s, k) {
        PopStages(fs, s, k, i);
      } else if CanStop(s, k) {
        StopStages(fs, s, k, i);
      } else {
        assert StageOk(fs, s, i) && StageOk(fs, s, k);
      }
    }
  }

  lemma NextKept(fs: Stages, s: State, streams: seq<seq<Line>>, s': State, input: seq<Line>) returns (streams': seq<seq<Line>>)
    requires Inv(fs, s, streams, input) && Next(fs, s, s')
    ensures Inv(fs, s', streams', input)
  {
    var k :| Productive(fs, s, k, s') || (CanWake(s, k) && s' == Wake(s, k));
    streams' := FlowKept(fs, s, streams, input, k, s');
    StagesKept(fs, s, k, s');
  }

  function InitialStreams(fs: Stages, input: seq<Line>): (r: seq<seq<Line>>)
    ensures |r| == |fs| + 1
  {
    seq(|fs| + 1, k requires 0 <= k <= |fs| => Compose(fs, k, input))
  }

  lemma InitKept(fs: Stages, s: State, input: seq<Line>)
    requires Init(fs, s, input)
    ensures Inv(fs, s, InitialStreams(fs, input), input)
  {
    forall k | 0 <= k <= |fs| ensures IsStream(fs, s, InitialStreams(fs, input), k) {
      InitialStream(fs, s, input, k);
    }
  }

  lemma InitialStream(fs: Stages, s: State, input: seq<Line>, k: nat)
    requires Sized(fs, s) && k <= |fs| && s.queues[k].items == [] && Unpushed(s.stages[k]) == if k == 0 then input else []
    ensures IsStream(fs, s, InitialStreams(fs, input), k)
  {
  }

  lemma {:induction false} RunKept(fs: Stages, run: seq<State>, input: seq<Line>, i: nat) returns (streams: seq<seq<Line>>)
    requires IsRun(fs, run, input) && i < |run|
    ensures Inv(fs, run[i], streams, input)
  {
    if i == 0 {
      InitKept(fs, run[0], input);
      streams := InitialStreams(fs, input);
    } else {
      streams := RunKept(fs, run, input, i - 1);
      assert Next(fs, run[i - 1], run[i]);
      streams := NextKept(fs, run[i - 1], streams, run[i], input);
    }
  }

  // ---- what every run guarantees ----

  /** At every moment the sink has consumed a prefix of what composing the stages gives. */
  lemma ConsumesInOrder(fs: Stages, run: seq<State>, input: seq<Line>, i: nat)
    requires IsRun(fs, run, input) && i < |run|
    ensures run[i].consumed <= Compose(fs, |fs|, input)
  {
    var streams := RunKept(fs, run, input, i);
  }

  ghost predicate Drained(s: State, k: nat)
    requires k <= |s.stages| && k <= |s.queues|
  {
    forall j :: 0 <= j < k ==> s.stages[j] == Finished && s.queues[j] == Queue([], true)
  }

  lemma {:induction false} DrainedUpTo(fs: Stages, s: State, k: nat)
    requires Shaped(fs, s) && StagesOk(fs, s) && k < |s.stages| && (s.stages[k] == Stopping || s.stages[k] == Finished)
    ensures Drained(s, k)
  {
    assert StageOk(fs, s, k);
    if k > 0 {
      assert StageOk(fs, s, k - 1);
      DrainedUpTo(fs, s, k - 1);
    }
  }

  /** A pop returns false only on a queue that is stopped and drained, as are then all queues before
      it; a stage that sleeps has an empty queue that is not stopped. */
  lemma PopIsHonest(fs: Stages, run: seq<State>, input: seq<Line>, i: nat, k: nat)
    requires IsRun(fs, run, input) && i < |run| && 0 < k < |run[i].stages|
    ensures Sized(fs, run[i])
    ensures run[i].stages[k] == Stopping || run[i].stages[k] == Finished ==> Drained(run[i], k)
    ensures run[i].stages[k] == Waiting ==> run[i].queues[k - 1] == Queue([], false)
  {
    var streams := RunKept(fs, run, input, i);
    assert StageOk(fs, run[i], k);
    if run[i].stages[k] == Stopping || run[i].stages[k] == Finished {
      DrainedUpTo(fs, run[i], k);
    }
  }

  /** Nothing comes out of drained stages. */
  lemma {:induction false} DrainedStream(fs: Stages, s: State, streams: seq<seq<Line>>, input: seq<Line>, k: nat)
    requires Flows(fs, s, streams, input) && k <= |fs| && Drained(s, |fs| + 1)
    ensures streams[k] == []
  {
    assert IsStream(fs, s, streams, k);
    if k > 0 {
      DrainedStream(fs, s, streams, input, k - 1);
    }
  }

  /** When the pipeline's future is ready, the sink has consumed exactly the composition, in order. */
  lemma FinishedMeansComposed(fs: Stages, run: seq<State>, input: seq<Line>, i: nat)
    requires IsRun(fs, run, input) && i < |run| && |run[i].stages| == |fs| + 2 && run[i].stages[|fs| + 1] == Finished
    ensures run[i].consumed == Compose(fs, |fs|, input)
  {
    var streams := RunKept(fs, run, input, i);
    DrainedUpTo(fs, run[i], |fs| + 1);
    DrainedStream(fs, run[i], streams, input, |fs|);
  }

  lemma {:induction false} SomeStageWorks(fs: Stages, s: State, k: nat) returns (j: nat, s': State)
    requires Shaped(fs, s) && k < |s.stages| && s.stages[k] != Finished
    requires StagesOk(fs, s)
    ensures Productive(fs, s, j, s')
  {
    assert StageOk(fs, s, k);
    j := k;
    match s.stages[k]
    case Emitting(out) => s' := if out == [] then Turn(s, k) else Push(fs, s, k);
    case Popping => s' := Pop(fs, s, k);
    case Stopping => s' := Stop(s, k);
    case Waiting =>
      assert StageOk(fs, s, k - 1);
      j, s' := SomeStageWorks(fs, s, k - 1);
  }

  /** Until the sink has finished, some stage can work, without any spurious wake-up. */
  lemma NoDeadlock(fs: Stages, run: seq<State>, input: seq<Line>, i: nat)
    requires IsRun(fs, run, input) && i < |run|
    requires |run[i].stages| == |fs| + 2 && run[i].stages[|fs| + 1] != Finished
    ensures exists s' :: Works(fs, run[i], s')
  {
    var streams := RunKept(fs, run, input, i);
    var j, s' := SomeStageWorks(fs, run[i], |fs| + 1);
    assert Works(fs, run[i], s');
  }

  // ---- every run ends ----

  /** The steps that one line in queue k still causes. */
  function LineCost(fs: Stages, k: nat, x: Line): nat
    requires k <= |fs|
    decreases |fs| - k, 0
  {
    3 + if k < |fs| then PushCost(fs, k + 1, fs[k](x)) else 0
  }

  function PushCost(fs: Stages, k: nat, xs: seq<Line>): nat
    requires k <= |fs|
    decreases |fs| - k, |xs| + 1
  {
    if xs == [] then 0 else LineCost(fs, k, xs[0]) + 2 + PushCost(fs, k, xs[1..])
  }

  function QueueCost(fs: Stages, k: nat, xs: seq<Line>): nat
    requires k <= |fs|
  {
    if xs == [] then 0 else LineCost(fs, k, xs[0]) + QueueCost(fs, k, xs[1..])
  }

  function Rank(pc: Pc): nat {
    match pc
    case Emitting(_) => 5
    case Popping => 4
    case Waiting => 3
    case Stopping => 2
    case Finished => 0
  }

  /** What stage k and its output queue still cost. */
  function Local(fs: Stages, s: State, k: nat): nat
    requires Sized(fs, s) && k < |s.stages|
  {
    Rank(s.stages[k]) + if k <= |fs| then PushCost(fs, k, Unpushed(s.stages[k])) + QueueCost(fs, k, s.queues[k].items) else 0
  }

  function Cost(fs: Stages, s: State, k: nat): nat
    requires Sized(fs, s) && k <= |s.stages|
  {
    if k == 0 then 0 else Cost(fs, s, k - 1) + Local(fs, s, k - 1)
  }

  function TotalCost(fs: Stages, s: State): nat
    requires Sized(fs, s)
  {
    Cost(fs, s, |fs| + 2)
  }

  /** Stages that cost the same add the same. */
  lemma {:induction false} CostChange(fs: Stages, s: State, s': State, j: nat, k: nat)
    requires Sized(fs, s) && Sized(fs, s') && j <= k <= |s.stages|
    requires forall i :: j <= i < k ==> Local(fs, s', i) == Local(fs, s, i)
    ensures Cost(fs, s', k) - Cost(fs, s', j) == Cost(fs, s, k) - Cost(fs, s, j)
  {
    if j < k {
      CostChange(fs, s, s', j, k - 1);
    }
  }

  lemma CostOfTwo(fs: Stages, s: State, j: nat)
    requires Sized(fs, s) && j + 1 < |s.stages|
    ensures Cost(fs, s, j + 2) == Cost(fs, s, j) + Local(fs, s, j) + Local(fs, s, j + 1)
  {
    assert Cost(fs, s, j + 1) == Cost(fs, s, j) + Local(fs, s, j);
  }

  lemma CostOutside(fs: Stages, s: State, s': State, j: nat)
    requires Sized(fs, s) && Sized(fs, s') && j + 1 < |s.stages|
    requires forall i :: 0 <= i < |s.stages| && i != j && i != j + 1 ==> Local(fs, s', i) == Local(fs, s, i)
    ensures TotalCost(fs, s') - Cost(fs, s', j + 2) + Cost(fs, s', j) == TotalCost(fs, s) - Cost(fs, s, j + 2) + Cost(fs, s, j)
  {
    CostBelow(fs, s, s', j);
    CostChange(fs, s, s', j + 2, |fs| + 2);
  }

  lemma CostBelow(fs: Stages, s: State, s': State, k: nat)
    requires Sized(fs, s) && Sized(fs, s') && k <= |s.stages|
    requires forall i :: 0 <= i < k ==> Local(fs, s', i) == Local(fs, s, i)
    ensures Cost(fs, s', k) == Cost(fs, s, k)
  {
    CostChange(fs, s, s', 0, k);
  }

  /** A change at two neighbours changes the sum by what they change. */
  lemma TwoCosts(fs: Stages, s: State, s': State, j: nat)
    requires Sized(fs, s) && Sized(fs, s') && j + 1 < |s.stages|
    requires forall i :: 0 <= i < |s.stages| && i != j && i != j + 1 ==> Local(fs, s', i) == Local(fs, s, i)
    ensures TotalCost(fs, s') - TotalCost(fs, s) == Local(fs, s', j) + Local(fs, s', j + 1) - Local(fs, s, j) - Local(fs, s, j + 1)
  {
    CostOutside(fs, s, s', j);
    CostOfTwo(fs, s, j);
    CostOfTwo(fs, s', j);
  }

  lemma {:induction false} QueueCostSnoc(fs: Stages, k: nat, xs: seq<Line>, x: Line)
    requires k <= |fs|
    ensures QueueCost(fs, k, xs + [x]) == QueueCost(fs, k, xs) + LineCost(fs, k, x)
  {
    if xs != [] {
      assert (xs + [x])[1..] == xs[1..] + [x];
      QueueCostSnoc(fs, k, xs[1..], x);
    }
  }

  /** Only stages j and j + 1 change, with their output queues, and they cost less. */
  lemma TwoCostLess(fs: Stages, s: State, s': State, j: nat)
    requires Sized(fs, s) && Sized(fs, s') && j + 1 < |s.stages|
    requires forall i :: 0 <= i < |s.stages| && i != j && i != j + 1 ==>
      s'.stages[i] == s.stages[i] && (i <= |fs| ==> s'.queues[i].items == s.queues[i].items)
    requires Local(fs, s', j) + Local(fs, s', j + 1) < Local(fs, s, j) + Local(fs, s, j + 1)
    ensures TotalCost(fs, s') < TotalCost(fs, s)
  {
    TwoCosts(fs, s, s', j);
  }

  lemma PushCosts(fs: Stages, s: State, k: nat)
    requires Shaped(fs, s) && CanPush(fs, s, k)
    ensures Shaped(fs, Push(fs, s, k)) && TotalCost(fs, Push(fs, s, k)) < TotalCost(fs, s)
  {
    var s' := Push(fs, s, k);
    QueueCostSnoc(fs, k, s.queues[k].items, s.stages[k].out[0]);
    assert Local(fs, s', k) == Local(fs, s, k) - 2;
    assert Local(fs, s', k + 1) <= Local(fs, s, k + 1) + 1;
    TwoCostLess(fs, s, s', k);
  }

  lemma PopCosts(fs: Stages, s: State, k: nat)
    requires Shaped(fs, s) && CanPop(s, k)
    ensures Shaped(fs, Pop(fs, s, k)) && TotalCost(fs, Pop(fs, s, k)) < TotalCost(fs, s)
  {
    var s', q := Pop(fs, s, k), s.queues[k - 1].items;
    if q != [] {
      assert Local(fs, s, k - 1) == Local(fs, s', k - 1) + LineCost(fs, k - 1, q[0]);
      assert Local(fs, s', k) <= Local(fs, s, k) + LineCost(fs, k - 1, q[0]) - 2;
    }
    TwoCostLess(fs, s, s', k - 1);
  }

  lemma StopCosts(fs: Stages, s: State, k: nat)
    requires Shaped(fs, s) && CanStop(s, k)
    ensures Shaped(fs, Stop(s, k)) && TotalCost(fs, Stop(s, k)) < TotalCost(fs, s)
  {
    TwoCostLess(fs, s, Stop(s, k), k);
  }

  lemma TurnCosts(fs: Stages, s: State, k: nat)
    requires Shaped(fs, s) && CanTurn(s, k)
    ensures Shaped(fs, Turn(s, k)) && TotalCost(fs, Turn(s, k)) < TotalCost(fs, s)
  {
    TwoCostLess(fs, s, Turn(s, k), k);
  }

  lemma WorkCosts(fs: Stages, s: State, k: nat, s': State)
    requires Shaped(fs, s) && Productive(fs, s, k, s')
    ensures Shaped(fs, s') && TotalCost(fs, s') < TotalCost(fs, s)
  {
    if CanPush(fs, s, k) {
      PushCosts(fs, s, k);
    } else if CanPop(s, k) {
      PopCosts(fs, s, k);
    } else if CanStop(s, k) {
      StopCosts(fs, s, k);
    } else {
      TurnCosts(fs, s, k);
    }
  }

  lemma WakeCosts(fs: Stages, s: State, k: nat)
    requires Shaped(fs, s) && CanWake(s, k)
    ensures Shaped(fs, Wake(s, k)) && TotalCost(fs, Wake(s, k)) == TotalCost(fs, s) + 1
  {
    TwoCosts(fs, s, Wake(s, k), if k <= |fs| then k else k - 1);
  }

  /** How many steps before the i-th state were spurious wake-ups. */
  ghost function WakeCount(fs: Stages, run: seq<State>, i: nat): nat
    requires i < |run|
  {
    if i == 0 then 0 else WakeCount(fs, run, i - 1) + if Works(fs, run[i - 1], run[i]) then 0 else 1
  }

  /** Apart from spurious wake-ups and the steps they undo, a run takes at most the cost of its input. */
  lemma {:induction false} RunIsBounded(fs: Stages, run: seq<State>, input: seq<Line>, i: nat)
    requires IsRun(fs, run, input) && i < |run|
    ensures Shaped(fs, run[0]) && Shaped(fs, run[i])
    ensures i + TotalCost(fs, run[i]) <= TotalCost(fs, run[0]) + 2 * WakeCount(fs, run, i)
  {
    var streams := RunKept(fs, run, input, i);
    if i > 0 {
      RunIsBounded(fs, run, input, i - 1);
      assert Next(fs, run[i - 1], run[i]);
      if Works(fs, run[i - 1], run[i]) {
        var k :| Productive(fs, run[i - 1], k, run[i]);
        WorkCosts(fs, run[i - 1], k, run[i]);
      } else {
        var k :| CanWake(run[i - 1], k) && run[i] == Wake(run[i - 1], k);
        WakeCosts(fs, run[i - 1], k);
      }
    }
  }

  // ---- the program's own stages ----

  function Long(line: Line): seq<Line> {
    if |line| > 5 then [line] else []
  }

  function ToUpper(c: char): char {
    if 'a' <= c <= 'z' then c - 32 as char else c
  }

  /** Character by character, letters from a to z become those from A to Z, and all others stay. */
  predicate InUpperCase(line: Line, u: Line) {
    && |u| == |line|
    && forall i :: 0 <= i < |line| ==>
         if 'a' <= line[i] <= 'z' then u[i] as int - 'A' as int == line[i] as int - 'a' as int else u[i] == line[i]
  }

  /** The loop of the `upper` stage over the characters of a line. */
  method UpperLine(line: Line) returns (newLine: Line)
    ensures newLine == Upper(line) && InUpperCase(line, newLine)
  {
    newLine := "";
    for i := 0 to |line|
      invariant newLine == Upper(line[..i])
    {
      newLine := newLine + [ToUpper(line[i])];
      assert line[..i + 1] == line[..i] + [line[i]];
    }
    assert line[..|line|] == line;
    UpperIsUpper(line);
  }

  lemma UpperIsUpper(line: Line)
    ensures InUpperCase(line, Upper(line))
  {
  }

  function Upper(line: Line): (u: Line)
    ensures |u| == |line|
  {
    seq(|line|, i requires 0 <= i < |line| => ToUpper(line[i]))
  }

  function UpperStage(line: Line): seq<Line> {
    [Upper(line)]
  }

  /** The lines longer than five characters, in order. */
  function LongLines(xs: seq<Line>): seq<Line> {
    if xs == [] then [] else (if |xs[0]| > 5 then [xs[0]] else []) + LongLines(xs[1..])
  }

  function UpperLines(xs: seq<Line>): seq<Line> {
    seq(|xs|, i requires 0 <= i < |xs| => Upper(xs[i]))
  }

  lemma {:induction false} FilterIsLong(xs: seq<Line>)
    ensures FlatMap(Long, xs) == LongLines(xs)
  {
    if xs != [] {
      FilterIsLong(xs[1..]);
    }
  }

  lemma {:induction false} MapIsUpper(xs: seq<Line>)
    ensures FlatMap(UpperStage, xs) == UpperLines(xs)
  {
    if xs != [] {
      MapIsUpper(xs[1..]);
      assert UpperLines(xs) == [Upper(xs[0])] + UpperLines(xs[1..]);
    }
  }

  /** Under every interleaving the program prints the long lines of its input in upper case. */
  lemma ProgramOutput(run: seq<State>, input: seq<Line>, i: nat)
    requires IsRun([Long, UpperStage], run, input) && i < |run| && |run[i].stages| == 4
    ensures run[i].consumed <= UpperLines(LongLines(input))
    ensures run[i].stages[3] == Finished ==> run[i].consumed == UpperLines(LongLines(input))
    ensures |run[i].consumed| <= |LongLines(input)|
    ensures run[i].stages[3] == Finished ==> |run[i].consumed| == |LongLines(input)|
    ensures forall j :: 0 <= j < |run[i].consumed| ==> InUpperCase(LongLines(input)[j], run[i].consumed[j])
  {
    var fs := [Long, UpperStage];
    ConsumesInOrder(fs, run, input, i);
    FilterIsLong(input);
    MapIsUpper(LongLines(input));
    assert Compose(fs, 2, input) == FlatMap(fs[1], FlatMap(fs[0], input)) by {
      assert Compose(fs, 1, input) == FlatMap(fs[0], Compose(fs, 0, input));
    }
    if run[i].stages[3] == Finished {
      FinishedMeansComposed(fs, run, input, i);
    }
    forall j | 0 <= j < |run[i].consumed| ensures InUpperCase(LongLines(input)[j], run[i].consumed[j]) {
      UpperIsUpper(LongLines(input)[j]);
      assert run[i].consumed[j] == UpperLines(LongLines(input))[j];
    }
  }
}
