/** What the processes around one bounded queue guarantee in every run. */
module ProducersConsumersTheorems {
  import opened Numbers
  import opened BoundedQueue
  import opened ProducersConsumers

  // ---- safety ----

  /** A process between the first wait and the last post of put or take. */
  function InCall(pr: Process): int {
    B(pr.pc != Want && pr.pc != Done)
  }

  lemma {:induction false} SumOfTwo(procs: seq<Process>)
    ensures Sum(procs, InCall) == Sum(procs, HoldsEmpty) + Sum(procs, HoldsFull)
  {
    if procs != [] {
      SumOfTwo(procs[..|procs| - 1]);
    }
  }

  /** In every interleaving each slot of the queue is counted once: free, filled, or in the hands of
      a process inside a call; so the cursors are never more than the queue's size apart. */
  lemma SlotsConserved(run: seq<State>, i: nat)
    requires IsRun(run) && i < |run|
    ensures var s := run[i];
      && s.empty + s.full + Sum(s.procs, InCall) == s.queueSize
      && s.mutex + Sum(s.procs, HoldsMutex) == 1
      && s.f <= s.p <= s.f + s.queueSize
  {
    var s := run[i];
    RunKept(run, i);
    SumOfTwo(s.procs);
    NotNegative(s, 0);
  }

  /** Critical sections exclude each other; a put writes a slot that holds no unread node, and a
      take reads a slot that holds the oldest one. */
  lemma CriticalSectionsAreSafe(run: seq<State>, i: nat, j: nat)
    requires IsRun(run) && i < |run| && j < |run[i].procs| && run[i].procs[j].pc == Inside
    ensures var s := run[i];
      && Fits(s) && (forall k :: 0 <= k < |s.procs| && k != j ==> HoldsMutex(s.procs[k]) == 0)
      && (s.procs[j].Producer? ==> forall k :: s.f <= k < s.p ==> SlotOf(s, k) != SlotOf(s, s.p))
      && (s.procs[j].Consumer? ==> s.f < |s.putLog| && ReadSlot(s.que, ITEM_SIZE, SlotOf(s, s.f)) == s.putLog[s.f])
  {
    var s := run[i];
    RunKept(run, i);
    InsideIsSafe(s, j);
    forall k | 0 <= k < |s.procs| && k != j ensures HoldsMutex(s.procs[k]) == 0 {
      SumAtLeastTwo(s.procs, j, k);
    }
    if s.procs[j].Producer? {
      forall k | s.f <= k < s.p ensures SlotOf(s, k) != SlotOf(s, s.p) {
        SlotsDiffer(s.queueSize, k, s.p);
      }
    } else {
      assert HoldsSlot(s, s.f);
    }
  }

  lemma SumAtLeastTwo(procs: seq<Process>, j: nat, k: nat)
    requires j < |procs| && k < |procs| && j != k
    ensures Sum(procs, HoldsMutex) >= HoldsMutex(procs[j]) + HoldsMutex(procs[k])
  {
    var idle := procs[j].(pc := Want);
    SumUpdate(procs, HoldsMutex, j, idle);
    SumAtLeast(procs[j := idle], HoldsMutex, k);
  }

  /** The k-th take returns the k-th put. */
  lemma TakesAreFifo(run: seq<State>, i: nat)
    requires IsRun(run) && i < |run|
    ensures run[i].f <= |run[i].putLog| == run[i].p && run[i].takeLog == run[i].putLog[..run[i].f]
  {
    RunKept(run, i);
  }

  /** Each producer's nodes enter the queue once each, in order, whoever else is putting. */
  lemma PutsInProgramOrder(run: seq<State>, i: nat, j: nat)
    requires IsRun(run) && i < |run| && j < |run[i].procs| && run[i].procs[j].Producer?
    ensures Ordinals(run[i].putBy, j) == UpTo(PutCount(run[i].procs[j]))
    ensures |run[i].putBy| == |run[i].putLog|
    ensures forall k :: 0 <= k < |run[i].putBy| ==> EntryOk(run[i], k)
  {
    RunKept(run, i);
  }

  /** Node number k of the queue is what its producer's program says: the ord-th put of producer i is the
      node (id, ord), or the stop node (-1, 0) after all of its items; and the k-th take reads the same. */
  lemma NodesReadBack(run: seq<State>, i: nat, k: nat)
    requires IsRun(run) && i < |run| && k < run[i].p
    ensures |run[i].putBy| == |run[i].putLog| == run[i].p && run[i].f == |run[i].takeLog|
    ensures var s, j, ord := run[i], run[i].putBy[k].0, run[i].putBy[k].1;
      && j < |s.procs| && s.procs[j].Producer? && ord <= s.procs[j].items
      && var author, id := if ord < s.procs[j].items then s.procs[j].id else -1, if ord < s.procs[j].items then ord else 0;
      && IsNode(s.putLog[k], author, id) && (k < s.f ==> IsNode(s.takeLog[k], author, id))
  {
    var s := run[i];
    RunKept(run, i);
    assert EntryOk(s, k);
    var j, ord := s.putBy[k].0, s.putBy[k].1;
    ItemReadsBack(s.procs[j], ord);
    OrdinalBelow(s.putBy, j, k, PutCount(s.procs[j]));
    assert GoodProcess(s.procs[j]);
    assert k < s.f ==> s.takeLog[k] == s.putLog[k];
  }

  lemma {:induction false} OrdinalBelow(putBy: seq<(nat, nat)>, i: nat, k: nat, n: nat)
    requires k < |putBy| && putBy[k].0 == i && Ordinals(putBy, i) == UpTo(n)
    ensures putBy[k].1 < n
    decreases |putBy|
  {
    var l := |putBy| - 1;
    if putBy[l].0 == i {
      var m := n - 1;
      assert n > 0;
      assert Ordinals(putBy[..l], i) == Ordinals(putBy, i)[..|Ordinals(putBy, i)| - 1] == UpTo(m);
      if k < l {
        OrdinalBelow(putBy[..l], i, k, m);
      }
    } else {
      assert Ordinals(putBy[..l], i) == UpTo(n);
      OrdinalBelow(putBy[..l], i, k, n);
    }
  }

  // ---- what does not change along a run ----

  lemma NextSums(s: State, s': State)
    requires Next(s, s')
    ensures Sum(s'.procs, Quota) == Sum(s.procs, Quota)
    ensures Sum(s'.procs, IsProducer) == Sum(s.procs, IsProducer)
    ensures Sum(s'.procs, IsConsumer) == Sum(s.procs, IsConsumer)
    ensures |s'.procs| == |s.procs|
  {
    var i :| CanStep(s, i) && s' == DoStep(s, i);
    StepMoves(s, i);
    SumMoves(s, s', i, Quota);
    SumMoves(s, s', i, IsProducer);
    SumMoves(s, s', i, IsConsumer);
  }

  lemma {:induction false} RunSums(run: seq<State>, i: nat)
    requires IsRun(run) && i < |run|
    ensures Sum(run[i].procs, Quota) == Sum(run[0].procs, Quota)
    ensures Sum(run[i].procs, IsProducer) == Sum(run[0].procs, IsProducer)
    ensures Sum(run[i].procs, IsConsumer) == Sum(run[0].procs, IsConsumer)
    ensures |run[i].procs| == |run[0].procs|
  {
    if i > 0 {
      RunSums(run, i - 1);
      assert Next(run[i - 1], run[i]);
      NextSums(run[i - 1], run[i]);
    }
  }

  /** No cursor exceeds the number of nodes to be put, so fewer than 2^31 of them cannot overflow a
      32-bit cursor. */
  lemma CursorsAreBounded(run: seq<State>, i: nat)
    requires IsRun(run) && i < |run|
    ensures run[i].f <= run[i].p <= Sum(run[0].procs, Quota)
    ensures Sum(run[0].procs, Quota) < TWO_31 ==> run[i].p < TWO_31
  {
    RunKept(run, i);
    RunSums(run, i);
    SumAtMost(run[i].procs, PutCount, Quota, 0);
  }

  // ---- stop nodes ----

  lemma {:induction false} StopsOfPrefix(log: seq<Item>, k: nat)
    requires k <= |log|
    ensures Stops(log[..k]) <= Stops(log)
    ensures k < |log| && IsStop(log[|log| - 1]) ==> Stops(log[..k]) < Stops(log)
  {
    if k < |log| {
      var shorter := log[..|log| - 1];
      assert shorter[..k] == log[..k];
      StopsOfPrefix(shorter, k);
    } else {
      assert log[..k] == log;
    }
  }

  predicate AllDone(s: State) {
    forall i :: 0 <= i < |s.procs| ==> s.procs[i].pc == Done
  }

  ghost predicate Balanced(s: State) {
    Sum(s.procs, IsProducer) == Sum(s.procs, IsConsumer)
  }

  /** A stop node is taken at most once by each consumer, and put once by each producer. */
  lemma StopsAreCounted(run: seq<State>, i: nat)
    requires IsRun(run) && i < |run|
    ensures var s := run[i];
      Stops(s.takeLog) == Sum(s.procs, StopTaken) <= Stops(s.putLog) == Sum(s.procs, StopPut) <= Sum(s.procs, IsProducer)
  {
    var s := run[i];
    RunKept(run, i);
    StopsOfPrefix(s.putLog, s.f);
    SumAtMost(s.procs, StopPut, IsProducer, 0);
  }

  /** When every process has exited, every node put has been taken, in the order of the puts; every
      producer's nodes are all among them; and each consumer has taken exactly one stop node. */
  lemma EverythingIsConsumed(run: seq<State>, i: nat)
    requires IsRun(run) && i < |run| && AllDone(run[i]) && Balanced(run[0])
    ensures var s := run[i];
      && s.f == s.p == Sum(s.procs, Quota) && s.takeLog == s.putLog && |s.putBy| == |s.putLog|
      && (forall j :: 0 <= j < |s.procs| && s.procs[j].Producer? ==> Ordinals(s.putBy, j) == UpTo(Quota(s.procs[j])))
      && (forall k :: 0 <= k < |s.putBy| ==> EntryOk(s, k))
      && Stops(s.takeLog) == Sum(s.procs, IsConsumer)
  {
    var s := run[i];
    RunKept(run, i);
    RunSums(run, i);
    AllDoneSums(s);
    if s.f < s.p {
      var l := s.p - 1;
      assert EntryOk(s, l);
      assert IsStop(s.putLog[l]);
      StopsOfPrefix(s.putLog, s.f);
    }
    assert s.putLog[..s.p] == s.putLog;
    forall j | 0 <= j < |s.procs| && s.procs[j].Producer? ensures PutCount(s.procs[j]) == Quota(s.procs[j]) {
      assert GoodProcess(s.procs[j]);
    }
  }

  lemma AllDoneSums(s: State)
    requires Fits(s) && AllDone(s)
    ensures Sum(s.procs, StopPut) == Sum(s.procs, IsProducer)
    ensures Sum(s.procs, StopTaken) == Sum(s.procs, IsConsumer)
    ensures Sum(s.procs, PutCount) == Sum(s.procs, Quota)
  {
    SumAtMost(s.procs, StopPut, IsProducer, 0);
    SumAtMost(s.procs, IsProducer, StopPut, 0);
    SumAtMost(s.procs, StopTaken, IsConsumer, 0);
    SumAtMost(s.procs, IsConsumer, StopTaken, 0);
    forall k | 0 <= k < |s.procs| ensures PutCount(s.procs[k]) == Quota(s.procs[k]) {
      assert GoodProcess(s.procs[k]);
    }
    SumAtMost(s.procs, PutCount, Quota, 0);
    SumAtMost(s.procs, Quota, PutCount, 0);
  }

  /** With fewer producers than consumers some consumer never exits. */
  lemma TooFewStops(run: seq<State>, i: nat)
    requires IsRun(run) && i < |run| && Sum(run[0].procs, IsProducer) < Sum(run[0].procs, IsConsumer)
    ensures !AllDone(run[i])
  {
    RunKept(run, i);
    RunSums(run, i);
    StopsAreCounted(run, i);
    if AllDone(run[i]) {
      AllDoneSums(run[i]);
    }
  }

  // ---- no deadlock ----

  /** In a state where nobody can move, everybody is done or waits at the first semaphore. */
  lemma StuckAtWant(s: State)
    requires Inv(s) && forall i :: 0 <= i < |s.procs| ==> !CanStep(s, i)
    ensures forall i :: 0 <= i < |s.procs| ==> s.procs[i].pc == Want || s.procs[i].pc == Done
    ensures s.empty == s.queueSize - (s.p - s.f) && s.full == s.p - s.f
  {
    forall i | 0 <= i < |s.procs| ensures HoldsMutex(s.procs[i]) == 0 {
      assert !CanStep(s, i);
    }
    ZeroSum(s.procs, HoldsMutex);
    forall i | 0 <= i < |s.procs| ensures s.procs[i].pc == Want || s.procs[i].pc == Done {
      assert !CanStep(s, i);
    }
    ZeroSum(s.procs, HoldsEmpty);
    ZeroSum(s.procs, HoldsFull);
  }

  /** A producer that has not finished is not alone with finished consumers. */
  lemma WaitingProducer(s: State, j: nat)
    requires StopsOk(s) && Balanced(s) && j < |s.procs| && s.procs[j].Producer? && s.procs[j].pc == Want
    ensures exists i :: 0 <= i < |s.procs| && s.procs[i].Consumer? && s.procs[i].pc != Done
  {
    if forall i :: 0 <= i < |s.procs| && s.procs[i].Consumer? ==> s.procs[i].pc == Done {
      SumAtMost(s.procs, IsConsumer, StopTaken, 0);
      SumAtMost(s.procs, StopPut, IsProducer, j);
      StopsOfPrefix(s.putLog, s.f);
    }
  }

  /** A consumer that waits for a node in an empty queue is not alone with finished producers. */
  lemma WaitingConsumer(s: State, j: nat)
    requires StopsOk(s) && Balanced(s) && j < |s.procs| && s.procs[j].Consumer? && s.procs[j].pc == Want
    requires s.f == |s.putLog|
    ensures exists i :: 0 <= i < |s.procs| && s.procs[i].Producer? && s.procs[i].pc != Done
  {
    assert s.putLog[..s.f] == s.putLog;
    if forall i :: 0 <= i < |s.procs| && s.procs[i].Producer? ==> s.procs[i].pc == Done {
      SumAtMost(s.procs, IsProducer, StopPut, 0);
      SumAtMost(s.procs, StopTaken, IsConsumer, j);
    }
  }

  lemma SomebodyMoves(s: State) returns (i: nat)
    requires Inv(s) && Balanced(s) && !AllDone(s)
    ensures CanStep(s, i)
  {
    if k :| 0 <= k < |s.procs| && CanStep(s, k) {
      i := k;
    } else {
      i :| 0 <= i < |s.procs| && s.procs[i].pc != Done;
      StuckAtWant(s);
      NotNegative(s, 0);
      StuckTogether(s, i);
    }
  }

  /** A full queue has a node for the consumer, an empty one has room for the producer. */
  lemma StuckTogether(s: State, j: nat)
    requires StopsOk(s) && Balanced(s) && j < |s.procs| && s.procs[j].pc == Want
    requires s.queueSize > 0 && s.f <= s.p == |s.putLog| <= s.f + s.queueSize
    requires forall i :: 0 <= i < |s.procs| ==> s.procs[i].pc == Want || s.procs[i].pc == Done
    requires s.empty == s.queueSize - (s.p - s.f) && s.full == s.p - s.f
    ensures exists i :: CanStep(s, i)
  {
    if CanStep(s, j) {
    } else if s.procs[j].Producer? {
      WaitingProducer(s, j);
      var i :| 0 <= i < |s.procs| && s.procs[i].Consumer? && s.procs[i].pc != Done;
      assert CanStep(s, i);
    } else {
      WaitingConsumer(s, j);
      var i :| 0 <= i < |s.procs| && s.procs[i].Producer? && s.procs[i].pc != Done;
      assert CanStep(s, i);
    }
  }

  /** With as many producers as consumers, any number of nodes each and any queue of at least one
      slot, every reachable state in which some process has not exited has a step. */
  lemma NoDeadlock(run: seq<State>, i: nat)
    requires IsRun(run) && i < |run| && Balanced(run[0]) && !AllDone(run[i])
    ensures exists s' :: Next(run[i], s')
  {
    RunKept(run, i);
    RunSums(run, i);
    var j := SomebodyMoves(run[i]);
    assert Next(run[i], DoStep(run[i], j));
  }

  ghost predicate Stuck(s: State) {
    forall s' :: !Next(s, s')
  }

  lemma StuckMeansNoStep(s: State)
    requires Fits(s) && Stuck(s)
    ensures forall k :: 0 <= k < |s.procs| ==> !CanStep(s, k)
  {
    forall k | 0 <= k < |s.procs| ensures !CanStep(s, k) {
      if CanStep(s, k) {
        assert Next(s, DoStep(s, k));
      }
    }
  }

  ghost predicate ConsumersDone(s: State) {
    forall j :: 0 <= j < |s.procs| && s.procs[j].Consumer? ==> s.procs[j].pc == Done
  }

  lemma DoneConsumersTookStops(s: State)
    requires StopsOk(s) && ConsumersDone(s)
    ensures Sum(s.procs, IsConsumer) <= Sum(s.procs, IsProducer)
  {
    SumAtMost(s.procs, IsConsumer, StopTaken, 0);
    SumAtMost(s.procs, StopPut, IsProducer, 0);
    StopsOfPrefix(s.putLog, s.f);
  }

  /** A consumer that waits in a stuck state waits for a stop node that nobody is left to put. */
  lemma StuckConsumer(s: State, j: nat)
    requires Inv(s) && (forall i :: 0 <= i < |s.procs| ==> !CanStep(s, i))
    requires j < |s.procs| && s.procs[j].Consumer? && s.procs[j].pc != Done
    ensures Sum(s.procs, IsProducer) < Sum(s.procs, IsConsumer)
  {
    StuckAtWant(s);
    assert !CanStep(s, j) && s.f == s.p;
    assert s.putLog[..s.f] == s.putLog;
    forall i | 0 <= i < |s.procs| ensures IsProducer(s.procs[i]) <= StopPut(s.procs[i]) {
      assert !CanStep(s, i);
    }
    SumAtMost(s.procs, IsProducer, StopPut, 0);
    SumAtMost(s.procs, StopTaken, IsConsumer, j);
  }

  /** In a run that cannot go on, all consumers have exited exactly if there are at least as many
      producers. */
  lemma ConsumersFinish(run: seq<State>, i: nat)
    requires IsRun(run) && i < |run| && Stuck(run[i])
    ensures ConsumersDone(run[i]) <==> Sum(run[0].procs, IsProducer) >= Sum(run[0].procs, IsConsumer)
  {
    var s := run[i];
    RunKept(run, i);
    RunSums(run, i);
    StuckMeansNoStep(s);
    if ConsumersDone(s) {
      DoneConsumersTookStops(s);
    } else {
      var j :| 0 <= j < |s.procs| && s.procs[j].Consumer? && s.procs[j].pc != Done;
      StuckConsumer(s, j);
    }
  }

  // ---- more producers than consumers ----

  /** A producer that waits in a stuck state waits for room in a full queue. */
  lemma StuckProducer(s: State, j: nat)
    requires Inv(s) && (forall i :: 0 <= i < |s.procs| ==> !CanStep(s, i))
    requires j < |s.procs| && s.procs[j].Producer? && s.procs[j].pc != Done
    ensures Sum(s.procs, Quota) - s.f > s.queueSize
  {
    StuckAtWant(s);
    assert !CanStep(s, j);
    forall k | 0 <= k < |s.procs| ensures PutCount(s.procs[k]) <= Quota(s.procs[k]) {
      assert GoodProcess(s.procs[k]);
    }
    assert GoodProcess(s.procs[j]);
    SumAtMost(s.procs, PutCount, Quota, j);
  }

  /** With at least as many producers as consumers, a run that cannot go on has finished exactly when
      the nodes that nobody took fit into the queue. */
  lemma StuckIsDone(run: seq<State>, i: nat)
    requires IsRun(run) && i < |run| && Stuck(run[i])
    requires Sum(run[0].procs, IsProducer) >= Sum(run[0].procs, IsConsumer)
    ensures AllDone(run[i]) <==> Sum(run[0].procs, Quota) - run[i].f <= run[i].queueSize
  {
    var s := run[i];
    RunKept(run, i);
    RunSums(run, i);
    ConsumersFinish(run, i);
    StuckMeansNoStep(s);
    if AllDone(s) {
      AllDoneSums(s);
      NotNegative(s, 0);
    } else {
      var j :| 0 <= j < |s.procs| && s.procs[j].pc != Done;
      StuckProducer(s, j);
    }
  }

  lemma {:induction false} StopsAtMost(log: seq<Item>)
    ensures Stops(log) <= |log|
  {
    if log != [] {
      StopsAtMost(log[..|log| - 1]);
    }
  }

  /** Since each consumer takes a node at least, it is enough that all but one for each consumer fit. */
  lemma EnoughRoom(run: seq<State>, i: nat)
    requires IsRun(run) && i < |run| && Stuck(run[i])
    requires Sum(run[0].procs, IsProducer) >= Sum(run[0].procs, IsConsumer)
    requires Sum(run[0].procs, Quota) <= run[i].queueSize + Sum(run[0].procs, IsConsumer)
    ensures AllDone(run[i])
  {
    var s := run[i];
    RunKept(run, i);
    RunSums(run, i);
    ConsumersFinish(run, i);
    StuckIsDone(run, i);
    SumAtMost(s.procs, IsConsumer, StopTaken, 0);
    StopsAtMost(s.putLog[..s.f]);
  }

  /** Two producers of a stop node each; the second has not begun. */
  function TwoProducers(first: Process): seq<Process> {
    [first, Producer(1, 0, 0, Want)]
  }

  /** They share one slot, and there is no consumer. */
  function OneSlot(mutex: nat, empty: nat, first: Process): State {
    State(1, TwoProducers(first), mutex, empty, 0, 0, 0, [0, 0, 0, 0, 0, 0, 0, 0], [], [], [])
  }

  lemma OneSlotSums(first: Process)
    requires first.Producer?
    ensures Sum(TwoProducers(first), IsProducer) == 2 && Sum(TwoProducers(first), IsConsumer) == 0
  {
    assert TwoProducers(first)[..1] == [first] && [first][..0] == [];
    assert Sum([first], IsProducer) == Sum([], IsProducer) + 1 && Sum([first], IsConsumer) == Sum([], IsConsumer);
  }

  /** A run goes on with a step of process `j`. */
  lemma Extended(run: seq<State>, j: nat) returns (longer: seq<State>)
    requires IsRun(run) && Fits(run[|run| - 1]) && CanStep(run[|run| - 1], j)
    ensures IsRun(longer) && |longer| == |run| + 1 && longer[0] == run[0]
    ensures longer[|run|] == DoStep(run[|run| - 1], j)
  {
    longer := run + [DoStep(run[|run| - 1], j)];
    forall i {:trigger Next(longer[i - 1], longer[i])} | 0 < i < |longer| ensures Next(longer[i - 1], longer[i]) {
      if i < |run| {
        assert Next(run[i - 1], run[i]);
      }
    }
  }

  /** The first producer enters its critical section. */
  lemma FirstGoesInside() returns (run: seq<State>)
    ensures IsRun(run) && |run| == 3 && run[0].procs == TwoProducers(Producer(0, 0, 0, Want))
    ensures run[2] == OneSlot(0, 0, Producer(0, 0, 0, Inside))
  {
    run := [OneSlot(1, 1, Producer(0, 0, 0, Want))];
    run := Extended(run, 0);
    assert run[1].procs == TwoProducers(Producer(0, 0, 0, Locking));
    run := Extended(run, 0);
    assert run[2].procs == TwoProducers(Producer(0, 0, 0, Inside));
  }

  /** It puts its node and exits; the second one finds no empty slot. */
  lemma FirstPuts(before: seq<State>) returns (run: seq<State>)
    requires IsRun(before) && |before| == 3 && before[2] == OneSlot(0, 0, Producer(0, 0, 0, Inside))
    ensures IsRun(run) && |run| == 6 && run[0] == before[0]
    ensures run[5].procs == TwoProducers(Producer(0, 0, 1, Done)) && run[5].empty == 0
  {
    StepMoves(before[2], 0);
    run := Extended(before, 0);
    assert run[3].procs == TwoProducers(Producer(0, 0, 0, Unlocking));
    StepMoves(run[3], 0);
    run := Extended(run, 0);
    assert run[4].procs == TwoProducers(Producer(0, 0, 0, Posting));
    StepMoves(run[4], 0);
    run := Extended(run, 0);
    assert run[5].procs == TwoProducers(Producer(0, 0, 1, Done));
  }

  lemma SecondIsStuck(s: State)
    requires s.procs == TwoProducers(Producer(0, 0, 1, Done)) && s.empty == 0
    ensures Stuck(s) && !AllDone(s)
  {
    assert s.procs[1].pc == Want;
  }

  /** A run in which a producer that is left over stays blocked on the full queue. */
  lemma ExtraProducerBlocks() returns (run: seq<State>)
    ensures IsRun(run) && |run| == 6 && Stuck(run[5]) && !AllDone(run[5])
    ensures Sum(run[0].procs, IsProducer) > Sum(run[0].procs, IsConsumer)
  {
    run := FirstGoesInside();
    run := FirstPuts(run);
    SecondIsStuck(run[5]);
    OneSlotSums(Producer(0, 0, 0, Want));
  }

  // ---- every run ends ----

  function Rank(pc: Pc): int {
    match pc
    case Want => 0
    case Locking => 1
    case Inside => 2
    case Unlocking => 3
    case Posting => 4
    case Done => 0
  }

  /** Steps a producer has left. */
  function ProducerLeft(pr: Process): int {
    if pr.Producer? then 5 * (pr.items + 1 - pr.made) - Rank(pr.pc) else 0
  }

  /** Steps a consumer has left, apart from five for each node not yet taken. */
  function ConsumerLeft(pr: Process): int {
    if pr.Producer? then 0
    else match pr.pc
      case Want => 2
      case Locking => 1
      case Inside => 0
      case Unlocking => 4
      case Posting => 3
      case Done => 0
  }

  ghost function Left(s: State): int {
    Sum(s.procs, ProducerLeft) + Sum(s.procs, ConsumerLeft) + 5 * (Sum(s.procs, Quota) - s.f)
  }

  lemma StepLeft(s: State, i: nat)
    requires Fits(s) && CanStep(s, i)
    ensures Left(DoStep(s, i)) < Left(s)
  {
    var s' := DoStep(s, i);
    StepMoves(s, i);
    SumMoves(s, s', i, ProducerLeft);
    SumMoves(s, s', i, ConsumerLeft);
    SumMoves(s, s', i, Quota);
    StepWeights(s, i);
  }

  lemma StepWeights(s: State, i: nat)
    requires Fits(s) && CanStep(s, i)
    ensures var pr, pr', s' := s.procs[i], DoStep(s, i).procs[i], DoStep(s, i);
      ProducerLeft(pr') + ConsumerLeft(pr') - 5 * s'.f < ProducerLeft(pr) + ConsumerLeft(pr) - 5 * s.f
  {
  }

  lemma LeftOfProcesses(procs: seq<Process>)
    requires forall k :: 0 <= k < |procs| ==> GoodProcess(procs[k])
    ensures Sum(procs, ProducerLeft) >= 0 && Sum(procs, ConsumerLeft) >= 0
  {
    forall k | 0 <= k < |procs| ensures ProducerLeft(procs[k]) >= 0 {
      assert GoodProcess(procs[k]);
    }
    SumAtLeast(procs, ProducerLeft, 0);
    SumAtLeast(procs, ConsumerLeft, 0);
  }

  lemma LeftNotNegative(run: seq<State>, i: nat)
    requires IsRun(run) && i < |run|
    ensures Left(run[i]) >= 0
  {
    RunKept(run, i);
    CursorsAreBounded(run, i);
    RunSums(run, i);
    LeftOfProcesses(run[i].procs);
  }

  lemma {:induction false} LeftDecreases(run: seq<State>, i: nat)
    requires IsRun(run) && i < |run|
    ensures Left(run[i]) + i <= Left(run[0])
  {
    if i > 0 {
      LeftDecreases(run, i - 1);
      assert Next(run[i - 1], run[i]);
      var j :| CanStep(run[i - 1], j) && run[i] == DoStep(run[i - 1], j);
      StepLeft(run[i - 1], j);
    }
  }

  /** Two steps for a consumer and ten for each node to be put. */
  lemma {:induction false} InitialLeft(procs: seq<Process>)
    requires forall k :: 0 <= k < |procs| ==> procs[k].pc == Want && (procs[k].Producer? ==> procs[k].made == 0)
    ensures Sum(procs, ProducerLeft) + Sum(procs, ConsumerLeft) == 5 * Sum(procs, Quota) + 2 * Sum(procs, IsConsumer)
  {
    if procs != [] {
      InitialLeft(procs[..|procs| - 1]);
    }
  }

  /** Whatever the interleaving, a run has at most ten steps for each node and two for each consumer;
      and a run that cannot go on, with as many producers as consumers, has consumed everything. */
  lemma EveryRunEnds(run: seq<State>)
    requires IsRun(run)
    ensures |run| - 1 <= 10 * Sum(run[0].procs, Quota) + 2 * Sum(run[0].procs, IsConsumer)
    ensures var s := run[|run| - 1];
      Balanced(run[0]) && Stuck(s) ==> AllDone(s) && s.takeLog == s.putLog && s.p == Sum(s.procs, Quota)
  {
    var i := |run| - 1;
    LeftDecreases(run, i);
    LeftNotNegative(run, i);
    InitialLeft(run[0].procs);
    if Balanced(run[0]) && Stuck(run[i]) {
      if !AllDone(run[i]) {
        NoDeadlock(run, i);
      }
      EverythingIsConsumed(run, i);
    }
  }
}
