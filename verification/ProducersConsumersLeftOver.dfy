/** When all processes around the queue exit, whatever the interleaving: a condition on how many nodes
    each producer puts, to be checked before anything runs. */
module ProducersConsumersLeftOver {
  import opened Numbers
  import opened BoundedQueue
  import opened ProducersConsumers
  import opened ProducersConsumersTheorems

  /** The processes of `some`; nothing in place of the others. */
  function Only(procs: seq<Process>, some: set<nat>): (r: seq<Process>)
    ensures |r| == |procs|
  {
    seq(|procs|, i requires 0 <= i < |procs| => if i in some then procs[i] else Consumer([], Done))
  }

  predicate AreProducers(procs: seq<Process>, some: set<nat>) {
    forall i :: i in some ==> i < |procs| && procs[i].Producer?
  }

  /** As many producers as there are more producers than consumers. */
  predicate LeftOver(procs: seq<Process>, left: set<nat>) {
    AreProducers(procs, left) && |left| == Sum(procs, IsProducer) - Sum(procs, IsConsumer)
  }

  /** The nodes of any producers that may be left over fit into the queue. */
  ghost predicate LeftOversFit(s: State) {
    forall left: set<nat> :: LeftOver(s.procs, left) ==> Sum(Only(s.procs, left), Quota) <= s.queueSize
  }

  // ---- sums ----

  lemma {:induction false} SumsAtMost(a: seq<Process>, u: Process -> int, b: seq<Process>, v: Process -> int,
                                      c: seq<Process>, w: Process -> int, i: nat)
    requires |a| == |b| == |c| && forall k :: 0 <= k < |a| ==> u(a[k]) <= v(b[k]) + w(c[k])
    ensures Sum(a, u) <= Sum(b, v) + Sum(c, w)
    ensures i < |a| && u(a[i]) < v(b[i]) + w(c[i]) ==> Sum(a, u) < Sum(b, v) + Sum(c, w)
  {
    if a != [] {
      var l := |a| - 1;
      SumsAtMost(a[..l], u, b[..l], v, c[..l], w, i);
    }
  }

  lemma OnlyOfPrefix(procs: seq<Process>, some: set<nat>)
    requires procs != []
    ensures Only(procs, some)[..|procs| - 1] == Only(procs[..|procs| - 1], some)
  {
  }

  lemma {:induction false} CountOnly(procs: seq<Process>, some: set<nat>)
    requires AreProducers(procs, some)
    ensures Sum(Only(procs, some), IsProducer) == |some|
  {
    if procs == [] {
      assert some == {};
    } else {
      var l := |procs| - 1;
      OnlyOfPrefix(procs, some);
      OnlySame(procs[..l], some, some - {l});
      CountOnly(procs[..l], some - {l});
    }
  }

  lemma OnlySame(procs: seq<Process>, some: set<nat>, others: set<nat>)
    requires forall i :: 0 <= i < |procs| ==> (i in some <==> i in others)
    ensures Only(procs, some) == Only(procs, others)
  {
  }

  /** What some processes weigh and what the others weigh make up the whole. */
  lemma {:induction false} SumSplits(procs: seq<Process>, some: set<nat>, others: set<nat>, w: Process -> int)
    requires w(Consumer([], Done)) == 0 && forall i :: 0 <= i < |procs| ==> (i in some <==> i !in others)
    ensures Sum(procs, w) == Sum(Only(procs, some), w) + Sum(Only(procs, others), w)
  {
    if procs != [] {
      OnlyOfPrefix(procs, some);
      OnlyOfPrefix(procs, others);
      SumSplits(procs[..|procs| - 1], some, others, w);
    }
  }

  // ---- the producers as of the first puts ----

  function Made(pr: Process): int {
    if pr.Producer? then pr.made else 0
  }

  /** The producer's stop node is among the nodes it has made. */
  function Finished(pr: Process): int {
    B(pr.Producer? && pr.made > pr.items)
  }

  /** A producer as of the first k puts. */
  function AsOf(s: State, k: nat): (r: seq<Process>)
    requires k <= |s.putBy|
    ensures |r| == |s.procs|
  {
    seq(|s.procs|, i requires 0 <= i < |s.procs| =>
      if s.procs[i].Producer? then s.procs[i].(made := |Ordinals(s.putBy[..k], i)|, pc := Want) else Consumer([], Done))
  }

  lemma {:induction false} UpToLength(n: nat)
    ensures |UpTo(n)| == n && forall i :: 0 <= i < n ==> UpTo(n)[i] == i
  {
    if n > 0 {
      UpToLength(n - 1);
    }
  }

  /** The puts of a producer among the first k are its first ones. */
  lemma {:induction false} OrdinalsOfPrefix(putBy: seq<(nat, nat)>, i: nat, k: nat)
    requires k <= |putBy|
    ensures Ordinals(putBy[..k], i) <= Ordinals(putBy, i)
    decreases |putBy|
  {
    var l := |putBy| - 1;
    if k <= l {
      assert putBy[..l][..k] == putBy[..k];
      OrdinalsOfPrefix(putBy[..l], i, k);
    } else {
      assert putBy[..k] == putBy;
    }
  }

  /** The k-th put is its producer's next one. */
  lemma NextOrdinal(s: State, k: nat)
    requires LogOk(s) && Fits(s) && k < |s.putBy|
    ensures var i, ord := s.putBy[k].0, s.putBy[k].1;
      && i < |s.procs| && s.procs[i].Producer? && ord == |Ordinals(s.putBy[..k], i)| <= s.procs[i].items
      && (IsStop(s.putLog[k]) <==> ord == s.procs[i].items)
    ensures forall j :: Ordinals(s.putBy[..k + 1], j) == Ordinals(s.putBy[..k], j) + if j == s.putBy[k].0 then [s.putBy[k].1] else []
  {
    var i, ord := s.putBy[k].0, s.putBy[k].1;
    assert EntryOk(s, k);
    assert s.putBy[..k + 1] == s.putBy[..k] + [(i, ord)];
    forall j ensures Ordinals(s.putBy[..k + 1], j) == Ordinals(s.putBy[..k], j) + if j == i then [ord] else [] {
      OrdinalsSnoc(s.putBy[..k], i, ord, j);
    }
    OrdinalsOfPrefix(s.putBy, i, k + 1);
    UpToLength(PutCount(s.procs[i]));
    assert Ordinals(s.putBy[..k + 1], i)[|Ordinals(s.putBy[..k], i)|] == ord;
    assert GoodProcess(s.procs[i]);
    StopItem(s.procs[i], ord);
  }

  lemma OneMorePut(s: State, k: nat)
    requires LogOk(s) && Fits(s) && k < |s.putBy|
    ensures var i := s.putBy[k].0;
      && i < |s.procs| && AsOf(s, k)[i].Producer? && AsOf(s, k)[i].made <= AsOf(s, k)[i].items
      && AsOf(s, k + 1) == AsOf(s, k)[i := AsOf(s, k)[i].(made := AsOf(s, k)[i].made + 1)]
      && (IsStop(s.putLog[k]) <==> AsOf(s, k)[i].made == AsOf(s, k)[i].items)
  {
    NextOrdinal(s, k);
  }

  lemma CountsOneMore(procs: seq<Process>, i: nat)
    requires i < |procs| && procs[i].Producer? && procs[i].made <= procs[i].items
    ensures var procs' := procs[i := procs[i].(made := procs[i].made + 1)];
      && Sum(procs', Made) == Sum(procs, Made) + 1
      && Sum(procs', Finished) == Sum(procs, Finished) + B(procs[i].made == procs[i].items)
  {
    SumUpdate(procs, Made, i, procs[i].(made := procs[i].made + 1));
    SumUpdate(procs, Finished, i, procs[i].(made := procs[i].made + 1));
  }

  lemma NothingMade(s: State)
    ensures Sum(AsOf(s, 0), Made) == 0 && Sum(AsOf(s, 0), Finished) == 0 && Stops(s.putLog[..0]) == 0
  {
    ZeroSum(AsOf(s, 0), Made);
    ZeroSum(AsOf(s, 0), Finished);
  }

  lemma StopsStep(log: seq<Item>, k: nat)
    requires k < |log|
    ensures Stops(log[..k + 1]) == Stops(log[..k]) + B(IsStop(log[k]))
  {
    assert log[..k + 1] == log[..k] + [log[k]];
    StopsSnoc(log[..k], log[k]);
  }

  lemma OneMoreCounts(s: State, k: nat, before: seq<Process>, after: seq<Process>)
    requires LogOk(s) && Fits(s) && k < |s.putBy| && before == AsOf(s, k) && after == AsOf(s, k + 1)
    ensures Sum(after, Made) == Sum(before, Made) + 1
    ensures Sum(after, Finished) == Sum(before, Finished) + B(IsStop(s.putLog[k]))
  {
    var i := s.putBy[k].0;
    OneMorePut(s, k);
    CountsOneMore(before, i);
    assert after == before[i := before[i].(made := before[i].made + 1)];
  }

  /** Put by put: the first k puts are those that the producers have made, and their stop nodes are those
      of the producers that are finished. */
  lemma {:induction false} PrefixCounts(s: State, k: nat)
    requires LogOk(s) && Fits(s) && k <= |s.putBy|
    ensures Sum(AsOf(s, k), Made) == k && Sum(AsOf(s, k), Finished) == Stops(s.putLog[..k])
  {
    if k == 0 {
      NothingMade(s);
    } else {
      PrefixCounts(s, k - 1);
      OneMoreCounts(s, k - 1, AsOf(s, k - 1), AsOf(s, k));
      StopsStep(s.putLog, k - 1);
    }
  }

  lemma MadeAtMost(s: State, k: nat, i: nat)
    requires LogOk(s) && Fits(s) && k <= |s.putBy| && i < |s.procs| && s.procs[i].Producer?
    ensures AsOf(s, k)[i].made <= PutCount(s.procs[i]) <= Quota(s.procs[i])
  {
    OrdinalsOfPrefix(s.putBy, i, k);
    UpToLength(PutCount(s.procs[i]));
    assert GoodProcess(s.procs[i]);
  }

  // ---- enough room: no producer stays blocked ----

  /** The producers whose stop nodes have not been taken. */
  ghost function NotTaken(s: State): (left: set<nat>)
    requires s.f <= |s.putBy|
    ensures AreProducers(s.procs, left)
  {
    set i: nat | i < |s.procs| && s.procs[i].Producer? && Finished(AsOf(s, s.f)[i]) == 0
  }

  /** Every consumer has taken one stop node, so as many producers are left over as there are more. */
  lemma NotTakenAreLeftOver(s: State)
    requires Inv(s) && ConsumersDone(s)
    ensures LeftOver(s.procs, NotTaken(s))
  {
    var left := NotTaken(s);
    PrefixCounts(s, s.f);
    SumAtMost(s.procs, StopTaken, IsConsumer, 0);
    SumAtMost(s.procs, IsConsumer, StopTaken, 0);
    CountOnly(s.procs, left);
    SumsAtMost(s.procs, IsProducer, AsOf(s, s.f), Finished, Only(s.procs, left), IsProducer, 0);
    SumsAtLeast(s, left);
  }

  lemma SumsAtLeast(s: State, left: set<nat>)
    requires s.f <= |s.putBy| && left == NotTaken(s)
    ensures Sum(AsOf(s, s.f), Finished) + Sum(Only(s.procs, left), IsProducer) <= Sum(s.procs, IsProducer)
  {
    var rest := set i: nat | i < |s.procs| && i !in left;
    SumSplits(s.procs, left, rest, IsProducer);
    SumsAtMost(AsOf(s, s.f), Finished, Only(s.procs, rest), IsProducer, s.procs, Nothing, 0);
    ZeroSum(s.procs, Nothing);
  }

  function Nothing(pr: Process): int {
    0
  }

  /** A producer that stays blocked is left over, and with it more nodes than fit. */
  lemma BlockedIsLeftOver(s: State, j: nat)
    requires Inv(s) && (forall i :: 0 <= i < |s.procs| ==> !CanStep(s, i))
    requires j < |s.procs| && s.procs[j].Producer? && s.procs[j].pc != Done
    ensures Sum(Only(s.procs, NotTaken(s)), Quota) > s.queueSize
  {
    var left := NotTaken(s);
    StuckAtWant(s);
    assert !CanStep(s, j) && s.p - s.f == s.queueSize;
    PrefixCounts(s, s.f);
    forall k | 0 <= k < |s.procs|
      ensures PutCount(s.procs[k]) <= Quota(Only(s.procs, left)[k]) + Made(AsOf(s, s.f)[k])
    {
      if s.procs[k].Producer? {
        MadeAtMost(s, s.f, k);
      }
    }
    MadeAtMost(s, s.f, j);
    assert GoodProcess(s.procs[j]);
    SumsAtMost(s.procs, PutCount, Only(s.procs, left), Quota, AsOf(s, s.f), Made, j);
  }

  /** The same producers with the same numbers of nodes, around a queue of the same size. */
  ghost predicate SameInput(s: State, s': State) {
    && s'.queueSize == s.queueSize && |s'.procs| == |s.procs|
    && forall i :: 0 <= i < |s.procs| ==>
         (s'.procs[i].Producer? <==> s.procs[i].Producer?) && Quota(s'.procs[i]) == Quota(s.procs[i])
  }

  lemma NextKeepsInput(s: State, s': State)
    requires Next(s, s')
    ensures SameInput(s, s')
  {
    var i :| CanStep(s, i) && s' == DoStep(s, i);
    StepMoves(s, i);
  }

  lemma {:induction false} RunKeepsInput(run: seq<State>, i: nat)
    requires IsRun(run) && i < |run|
    ensures SameInput(run[0], run[i])
  {
    if i > 0 {
      RunKeepsInput(run, i - 1);
      assert Next(run[i - 1], run[i]);
      NextKeepsInput(run[i - 1], run[i]);
    }
  }

  lemma {:induction false} SameSums(procs: seq<Process>, procs': seq<Process>, v: Process -> int)
    requires |procs'| == |procs| && forall k :: 0 <= k < |procs| ==> v(procs'[k]) == v(procs[k])
    ensures Sum(procs', v) == Sum(procs, v)
  {
    if procs != [] {
      SameSums(procs[..|procs| - 1], procs'[..|procs| - 1], v);
    }
  }

  lemma SameLeftOver(s: State, s': State, left: set<nat>)
    requires SameInput(s, s')
    ensures LeftOver(s'.procs, left) <==> LeftOver(s.procs, left)
    ensures Sum(Only(s'.procs, left), Quota) == Sum(Only(s.procs, left), Quota)
  {
    SameSums(s.procs, s'.procs, IsProducer);
    SameSums(s.procs, s'.procs, IsConsumer);
    SameSums(Only(s.procs, left), Only(s'.procs, left), Quota);
  }

  /** If all possible left-overs fit, a run that cannot go on has finished. */
  lemma FitMeansDone(run: seq<State>, i: nat)
    requires IsRun(run) && i < |run| && Stuck(run[i])
    requires Sum(run[0].procs, IsProducer) >= Sum(run[0].procs, IsConsumer) && LeftOversFit(run[0])
    ensures AllDone(run[i])
  {
    var s := run[i];
    RunKept(run, i);
    RunKeepsInput(run, i);
    ConsumersFinish(run, i);
    StuckMeansNoStep(s);
    if j :| 0 <= j < |s.procs| && s.procs[j].pc != Done {
      NotTakenAreLeftOver(s);
      BlockedIsLeftOver(s, j);
      SameLeftOver(run[0], s, NotTaken(s));
    }
  }

  // ---- too little room: a schedule that leaves a producer blocked ----

  /** The processes of `left` have not begun. */
  predicate NotBegun(s: State, left: set<nat>) {
    forall i :: i in left ==> i < |s.procs| && s.procs[i].Producer? && s.procs[i].pc == Want && s.procs[i].made == 0
  }

  predicate OthersDone(s: State, left: set<nat>) {
    forall i :: 0 <= i < |s.procs| && i !in left ==> s.procs[i].pc == Done
  }

  /** The producers outside `left` are as many as the consumers, and none of `left` has put a stop node. */
  lemma StopsOfOthers(s: State, left: set<nat>, j: nat)
    requires LeftOver(s.procs, left) && NotBegun(s, left)
    ensures Sum(s.procs, StopPut) <= Sum(s.procs, IsConsumer)
    ensures j < |s.procs| && j !in left && s.procs[j].Producer? && s.procs[j].pc == Want ==>
      Sum(s.procs, StopPut) < Sum(s.procs, IsConsumer)
  {
    var rest := set i: nat | i < |s.procs| && i !in left;
    CountOnly(s.procs, left);
    SumSplits(s.procs, left, rest, IsProducer);
    ZeroSum(s.procs, Nothing);
    SumsAtMost(s.procs, StopPut, Only(s.procs, rest), IsProducer, s.procs, Nothing, j);
  }

  lemma StopsOfDone(s: State, left: set<nat>)
    requires LeftOver(s.procs, left) && NotBegun(s, left)
    requires forall i :: 0 <= i < |s.procs| && i !in left && s.procs[i].Producer? ==> s.procs[i].pc == Done
    ensures Sum(s.procs, StopPut) == Sum(s.procs, IsConsumer)
  {
    var rest := set i: nat | i < |s.procs| && i !in left;
    CountOnly(s.procs, left);
    SumSplits(s.procs, left, rest, IsProducer);
    ZeroSum(s.procs, Nothing);
    SumsAtMost(s.procs, StopPut, Only(s.procs, rest), IsProducer, s.procs, Nothing, 0);
    SumsAtMost(Only(s.procs, rest), IsProducer, s.procs, StopPut, s.procs, Nothing, 0);
  }

  /** Nobody outside `left` can move and none of `left` has begun: the semaphores show the queue. */
  lemma OthersAtWant(s: State, left: set<nat>)
    requires Inv(s) && NotBegun(s, left) && forall i :: 0 <= i < |s.procs| && i !in left ==> !CanStep(s, i)
    ensures forall i :: 0 <= i < |s.procs| ==> s.procs[i].pc == Want || s.procs[i].pc == Done
    ensures s.empty == s.queueSize - (s.p - s.f) && s.full == s.p - s.f
  {
    forall i | 0 <= i < |s.procs| ensures HoldsMutex(s.procs[i]) == 0 {
      assert i !in left ==> !CanStep(s, i);
    }
    ZeroSum(s.procs, HoldsMutex);
    forall i | 0 <= i < |s.procs| ensures s.procs[i].pc == Want || s.procs[i].pc == Done {
      assert i !in left ==> !CanStep(s, i);
    }
    ZeroSum(s.procs, HoldsEmpty);
    ZeroSum(s.procs, HoldsFull);
  }

  /** Without the left-over producers the others do not block each other. */
  lemma OtherMoves(s: State, left: set<nat>) returns (i: nat)
    requires Inv(s) && LeftOver(s.procs, left) && NotBegun(s, left) && !OthersDone(s, left)
    ensures i !in left && CanStep(s, i)
  {
    if k: nat :| k < |s.procs| && k !in left && CanStep(s, k) {
      i := k;
    } else {
      i :| 0 <= i < |s.procs| && i !in left && s.procs[i].pc != Done;
      OthersAtWant(s, left);
      OthersBlock(s, left, i);
    }
  }

  /** If nobody outside `left` could move, a waiting producer would leave fewer stop nodes put than taken,
      and a waiting consumer fewer taken than put by way of an empty queue. */
  lemma OthersBlock(s: State, left: set<nat>, j: nat)
    requires StopsOk(s) && s.p == |s.putLog| && s.queueSize > 0 && LeftOver(s.procs, left) && NotBegun(s, left)
    requires j < |s.procs| && j !in left && s.procs[j].pc == Want
    requires forall i :: 0 <= i < |s.procs| ==> s.procs[i].pc == Want || s.procs[i].pc == Done
    requires s.empty == s.queueSize - (s.p - s.f) && s.full == s.p - s.f
    ensures exists i :: i !in left && CanStep(s, i)
  {
    if forall i :: i !in left ==> !CanStep(s, i) {
      assert !CanStep(s, j);
      StopsOfOthers(s, left, j);
      if s.procs[j].Producer? {
        forall i | 0 <= i < |s.procs| ensures IsConsumer(s.procs[i]) <= StopTaken(s.procs[i]) {
          assert i !in left ==> !CanStep(s, i);
        }
        SumAtMost(s.procs, IsConsumer, StopTaken, 0);
        StopsOfPrefix(s.putLog, s.f);
      } else {
        forall i | 0 <= i < |s.procs| && i !in left && s.procs[i].Producer? ensures s.procs[i].pc == Done {
          assert !CanStep(s, i);
        }
        StopsOfDone(s, left);
        assert s.putLog[..s.f] == s.putLog;
        SumAtMost(s.procs, StopTaken, IsConsumer, j);
      }
    }
  }

  lemma OtherStep(s: State, left: set<nat>, i: nat)
    requires Fits(s) && CanStep(s, i) && i !in left && NotBegun(s, left)
    ensures NotBegun(DoStep(s, i), left)
  {
    StepMoves(s, i);
  }

  /** The run so far, with `left` not begun. */
  ghost predicate Waits(run: seq<State>, left: set<nat>) {
    IsRun(run) && LeftOver(run[0].procs, left) && NotBegun(run[|run| - 1], left)
  }

  lemma OthersGoOn(run: seq<State>, left: set<nat>) returns (more: seq<State>)
    requires Waits(run, left) && !OthersDone(run[|run| - 1], left)
    ensures Waits(more, left) && more[0] == run[0] && LeftOf(more) < LeftOf(run)
  {
    var l := |run| - 1;
    RunKept(run, l);
    RunKeepsInput(run, l);
    SameLeftOver(run[0], run[l], left);
    var i := OtherMoves(run[l], left);
    more := Extended(run, i);
    OtherStep(run[l], left, i);
    StepLeft(run[l], i);
    LeftNotNegative(more, l + 1);
  }

  /** The others run to their end first. */
  lemma {:induction false} OthersFirst(run: seq<State>, left: set<nat>) returns (longer: seq<State>)
    requires Waits(run, left)
    ensures Waits(longer, left) && longer[0] == run[0] && OthersDone(longer[|longer| - 1], left)
    decreases LeftOf(run)
  {
    if OthersDone(run[|run| - 1], left) {
      longer := run;
    } else {
      longer := OthersGoOn(run, left);
      longer := OthersFirst(longer, left);
    }
  }

  /** The steps that the run can still make, at most. */
  ghost function LeftOf(run: seq<State>): nat {
    if run == [] || Left(run[|run| - 1]) < 0 then 0 else Left(run[|run| - 1])
  }

  lemma DoneStep(s: State, i: nat)
    requires Fits(s) && CanStep(s, i) && ConsumersDone(s)
    ensures ConsumersDone(DoStep(s, i)) && DoStep(s, i).f == s.f
  {
    StepMoves(s, i);
  }

  /** A run goes on until nobody can move; once the consumers are done nothing more is taken. */
  lemma {:induction false} RunOut(run: seq<State>) returns (longer: seq<State>)
    requires IsRun(run)
    ensures IsRun(longer) && longer[0] == run[0] && Stuck(longer[|longer| - 1])
    ensures ConsumersDone(run[|run| - 1]) ==> longer[|longer| - 1].f == run[|run| - 1].f
    decreases LeftOf(run)
  {
    var l := |run| - 1;
    RunKept(run, l);
    if i: nat :| i < |run[l].procs| && CanStep(run[l], i) {
      var more := Extended(run, i);
      StepLeft(run[l], i);
      LeftNotNegative(more, l + 1);
      if ConsumersDone(run[l]) {
        DoneStep(run[l], i);
      }
      longer := RunOut(more);
    } else {
      longer := run;
    }
  }

  /** What has been put when the others are done is at most what they had to put. */
  lemma OthersQuota(s: State, left: set<nat>)
    requires Inv(s) && NotBegun(s, left)
    ensures s.f + Sum(Only(s.procs, left), Quota) <= Sum(s.procs, Quota)
  {
    var rest := set i: nat | i < |s.procs| && i !in left;
    SumSplits(s.procs, left, rest, Quota);
    ZeroSum(s.procs, Nothing);
    forall k | 0 <= k < |s.procs| ensures PutCount(s.procs[k]) <= Quota(Only(s.procs, rest)[k]) {
      assert GoodProcess(s.procs[k]);
    }
    SumsAtMost(s.procs, PutCount, Only(s.procs, rest), Quota, s.procs, Nothing, 0);
  }

  lemma OthersTotal(before: seq<State>, left: set<nat>)
    requires Waits(before, left)
    ensures before[|before| - 1].f + Sum(Only(before[0].procs, left), Quota) <= Sum(before[0].procs, Quota)
  {
    var k := |before| - 1;
    RunKept(before, k);
    RunKeepsInput(before, k);
    SameLeftOver(before[0], before[k], left);
    OthersQuota(before[k], left);
    RunSums(before, k);
  }

  /** Once the others are done, what is left over cannot all be put if it does not fit. */
  lemma LeftOverBlocks(before: seq<State>, run: seq<State>, left: set<nat>)
    requires Waits(before, left)
    requires IsRun(run) && run[0] == before[0] && Stuck(run[|run| - 1]) && run[|run| - 1].f == before[|before| - 1].f
    requires Sum(Only(run[0].procs, left), Quota) > run[0].queueSize
    requires Sum(run[0].procs, IsProducer) >= Sum(run[0].procs, IsConsumer)
    ensures !AllDone(run[|run| - 1])
  {
    OthersTotal(before, left);
    RunKeepsInput(run, |run| - 1);
    StuckIsDone(run, |run| - 1);
  }

  /** Left-overs that do not fit: the others go first, and then these fill the queue. */
  lemma SomeRunBlocks(s: State, left: set<nat>) returns (run: seq<State>)
    requires Init(s) && LeftOver(s.procs, left) && Sum(Only(s.procs, left), Quota) > s.queueSize
    ensures IsRun(run) && run[0] == s && Stuck(run[|run| - 1]) && !AllDone(run[|run| - 1])
  {
    var before := OthersFirst([s], left);
    run := RunOut(before);
    LeftOverBlocks(before, run, left);
  }

  // ---- the exact condition ----

  ghost predicate AlwaysFinishes(s: State) {
    forall run {:trigger IsRun(run)} :: IsRun(run) && run[0] == s && Stuck(run[|run| - 1]) ==> AllDone(run[|run| - 1])
  }

  /** Every run from here ends with all processes exited, exactly if there are at least as many producers
      as consumers and whichever producers are left over, their nodes fit into the queue. */
  lemma FinishesIffLeftOversFit(s: State)
    requires Init(s)
    ensures AlwaysFinishes(s) <==> Sum(s.procs, IsProducer) >= Sum(s.procs, IsConsumer) && LeftOversFit(s)
  {
    if Sum(s.procs, IsProducer) < Sum(s.procs, IsConsumer) {
      var run := RunOut([s]);
      TooFewStops(run, |run| - 1);
    } else if LeftOversFit(s) {
      forall run {:trigger IsRun(run)} | IsRun(run) && run[0] == s && Stuck(run[|run| - 1]) ensures AllDone(run[|run| - 1]) {
        FitMeansDone(run, |run| - 1);
      }
    } else {
      var left: set<nat> :| LeftOver(s.procs, left) && Sum(Only(s.procs, left), Quota) > s.queueSize;
      var run := SomeRunBlocks(s, left);
    }
  }
}
