/** Any number of producer and consumer processes over one bounded queue.

    A process's step is one semaphore operation or one critical section; each process repeats
    put or take until its stop node.  A sem_wait is a step only while the semaphore is positive. */
module ProducersConsumers {
  import opened Numbers
  import opened BoundedQueue

  const ITEM_SIZE: nat := 8
  const TWO_31: nat := 0x8000_0000

  /** Where a process is inside put or take. */
  datatype Pc = Want | Locking | Inside | Unlocking | Posting | Done

  /** A producer puts `items` nodes and then a stop node; `made` calls have returned. */
  datatype Process =
    | Producer(id: nat, items: nat, made: nat, pc: Pc)
    | Consumer(node: Item, pc: Pc)

  /** The logs are auxiliary: every node put, who put it as its which, and every node taken. */
  datatype State = State(
    queueSize: nat,
    procs: seq<Process>,
    mutex: nat,
    empty: nat,
    full: nat,
    f: nat,
    p: nat,
    que: seq<byte>,
    putLog: seq<Item>,
    putBy: seq<(nat, nat)>,
    takeLog: seq<Item>)

  // ---- nodes ----

  /** A 32-bit signed int in memory. */
  function EncodeInt(x: int): (bytes: seq<byte>)
    requires -0x8000_0000 <= x < 0x8000_0000
    ensures |bytes| == 4
  {
    var u: nat := if x < 0 then x + 0x1_0000_0000 else x;
    [u % 256, u / 0x100 % 256, u / 0x1_0000 % 256, u / 0x100_0000 % 256]
  }

  function EncodeNode(author: int, id: int): (item: Item)
    requires -0x8000_0000 <= author < 0x8000_0000 && -0x8000_0000 <= id < 0x8000_0000
    ensures |item| == ITEM_SIZE
  {
    EncodeInt(author) + EncodeInt(id)
  }

  /** The author field is -1. */
  predicate IsStop(item: Item) {
    |item| >= 4 && item[..4] == [255, 255, 255, 255]
  }

  /** The `ord`-th node a producer puts. */
  function ItemOf(pr: Process, ord: nat): (item: Item)
    requires pr.Producer? && pr.id < TWO_31 && pr.items < TWO_31
    ensures |item| == ITEM_SIZE
  {
    if ord < pr.items then EncodeNode(pr.id, ord) else EncodeNode(-1, 0)
  }

  lemma StopItem(pr: Process, ord: nat)
    requires pr.Producer? && pr.id < TWO_31 && pr.items < TWO_31
    ensures IsStop(ItemOf(pr, ord)) <==> ord >= pr.items
  {
    var item := ItemOf(pr, ord);
    assert item[..4] == EncodeInt(if ord < pr.items then pr.id else -1);
    assert ord < pr.items ==> item[..4][3] == pr.id / 0x100_0000 % 256 < 128;
  }

  /** What a process reads from four bytes of memory: a little-endian signed int. */
  function DecodeInt(bytes: seq<byte>): int
    requires |bytes| == 4
  {
    var a: int, b: int, c: int, d: int := bytes[0], bytes[1], bytes[2], bytes[3];
    var u := a + 0x100 * b + 0x1_0000 * c + 0x100_0000 * d;
    if u < 0x8000_0000 then u else u - 0x1_0000_0000
  }

  lemma FourBytes(u: nat)
    requires u < 0x1_0000_0000
    ensures u == u % 256 + 0x100 * (u / 0x100 % 256) + 0x1_0000 * (u / 0x1_0000 % 256) + 0x100_0000 * (u / 0x100_0000 % 256)
  {
    var q := u / 0x100;
    assert q / 0x100 == u / 0x1_0000 && q / 0x1_0000 == u / 0x100_0000;
  }

  lemma IntReadsBack(x: int)
    requires -0x8000_0000 <= x < 0x8000_0000
    ensures DecodeInt(EncodeInt(x)) == x
  {
    FourBytes(if x < 0 then x + 0x1_0000_0000 else x);
  }

  /** The author and the id of a node in memory. */
  predicate IsNode(item: Item, author: int, id: int) {
    |item| == 8 && DecodeInt(item[..4]) == author && DecodeInt(item[4..]) == id
  }

  /** Producer `id` puts the nodes (id, 0), (id, 1), ... and then the node (-1, 0). */
  lemma ItemReadsBack(pr: Process, ord: nat)
    requires pr.Producer? && pr.id < TWO_31 && pr.items < TWO_31
    ensures IsNode(ItemOf(pr, ord), if ord < pr.items then pr.id else -1, if ord < pr.items then ord else 0)
  {
    var author, id := if ord < pr.items then pr.id else -1, if ord < pr.items then ord else 0;
    var item := ItemOf(pr, ord);
    IntReadsBack(author);
    IntReadsBack(id);
    assert item[..4] == EncodeInt(author) && item[4..] == EncodeInt(id);
  }

  /** A consumer stops exactly at a node whose author is -1. */
  lemma StopReadsBack(item: Item)
    requires |item| == 8
    ensures IsStop(item) <==> DecodeInt(item[..4]) == -1
  {
    var b := item[..4];
    if DecodeInt(b) == -1 {
      assert b[0] == 255 && b[1] == 255 && b[2] == 255 && b[3] == 255;
      assert b == [255, 255, 255, 255];
    }
  }

  // ---- the steps ----

  predicate CanStep(s: State, i: nat) {
    && i < |s.procs|
    && match s.procs[i].pc
       case Want => if s.procs[i].Producer? then s.empty > 0 else s.full > 0
       case Locking => s.mutex > 0
       case Inside => true
       case Unlocking => true
       case Posting => true
       case Done => false
  }

  predicate Fits(s: State) {
    && s.queueSize > 0 && |s.que| == ITEM_SIZE * s.queueSize
    && forall i :: 0 <= i < |s.procs| ==> GoodProcess(s.procs[i])
  }

  predicate GoodProcess(pr: Process) {
    pr.Producer? ==>
      && pr.id < TWO_31 && pr.items < TWO_31 && pr.made <= pr.items + 1
      && (pr.pc == Done <==> pr.made == pr.items + 1)
  }

  function At(s: State, i: nat, pc: Pc): seq<Process>
    requires i < |s.procs|
  {
    s.procs[i := s.procs[i].(pc := pc)]
  }

  function SlotOf(s: State, k: nat): (slot: nat)
    requires Fits(s)
    ensures slot < s.queueSize && ITEM_SIZE * (slot + 1) <= |s.que|
  {
    SlotFits(ITEM_SIZE, k % s.queueSize, s.queueSize);
    k % s.queueSize
  }

  /** One step of a producer inside bbq_put, or on to its next node. */
  function ProducerStep(s: State, i: nat): State
    requires CanStep(s, i) && Fits(s) && s.procs[i].Producer?
  {
    var pr := s.procs[i];
    match pr.pc
    case Want => s.(empty := s.empty - 1, procs := At(s, i, Locking))
    case Locking => s.(mutex := s.mutex - 1, procs := At(s, i, Inside))
    case Inside =>
      var item := ItemOf(pr, pr.made);
      s.(que := WriteSlot(s.que, ITEM_SIZE, SlotOf(s, s.p), item), p := s.p + 1, procs := At(s, i, Unlocking),
         putLog := s.putLog + [item], putBy := s.putBy + [(i, pr.made)])
    case Unlocking => s.(mutex := s.mutex + 1, procs := At(s, i, Posting))
    case Posting =>
      s.(full := s.full + 1,
         procs := s.procs[i := pr.(made := pr.made + 1, pc := if pr.made < pr.items then Want else Done)])
  }

  /** One step of a consumer inside bbq_take, or on to its next take. */
  function ConsumerStep(s: State, i: nat): State
    requires CanStep(s, i) && Fits(s) && s.procs[i].Consumer?
  {
    var pr := s.procs[i];
    match pr.pc
    case Want => s.(full := s.full - 1, procs := At(s, i, Locking))
    case Locking => s.(mutex := s.mutex - 1, procs := At(s, i, Inside))
    case Inside =>
      var item := ReadSlot(s.que, ITEM_SIZE, SlotOf(s, s.f));
      s.(f := s.f + 1, procs := s.procs[i := Consumer(item, Unlocking)], takeLog := s.takeLog + [item])
    case Unlocking => s.(mutex := s.mutex + 1, procs := At(s, i, Posting))
    case Posting => s.(empty := s.empty + 1, procs := At(s, i, if IsStop(pr.node) then Done else Want))
  }

  function DoStep(s: State, i: nat): State
    requires CanStep(s, i) && Fits(s)
  {
    if s.procs[i].Producer? then ProducerStep(s, i) else ConsumerStep(s, i)
  }

  ghost predicate Next(s: State, s': State) {
    Fits(s) && exists i :: CanStep(s, i) && s' == DoStep(s, i)
  }

  /** bbq_init has run and the processes start. */
  ghost predicate Init(s: State) {
    && Fits(s) && s.mutex == 1 && s.empty == s.queueSize && s.full == 0 && s.f == 0 && s.p == 0
    && s.putLog == [] && s.putBy == [] && s.takeLog == []
    && forall i :: 0 <= i < |s.procs| ==> s.procs[i].pc == Want && (s.procs[i].Producer? ==> s.procs[i].made == 0)
  }

  ghost predicate IsRun(run: seq<State>) {
    && |run| > 0 && Init(run[0])
    && forall i {:trigger Next(run[i - 1], run[i])} :: 0 < i < |run| ==> Next(run[i - 1], run[i])
  }

  // ---- sums over the processes ----

  function Sum(procs: seq<Process>, w: Process -> int): int {
    if procs == [] then 0 else Sum(procs[..|procs| - 1], w) + w(procs[|procs| - 1])
  }

  lemma {:induction false} SumUpdate(procs: seq<Process>, w: Process -> int, i: nat, pr: Process)
    requires i < |procs|
    ensures Sum(procs[i := pr], w) == Sum(procs, w) - w(procs[i]) + w(pr)
  {
    var l := |procs| - 1;
    if i == l {
      assert procs[i := pr][..l] == procs[..l];
    } else {
      assert procs[i := pr][..l] == procs[..l][i := pr];
      SumUpdate(procs[..l], w, i, pr);
    }
  }

  /** A sum of non-negative weights is at least each of them. */
  lemma {:induction false} SumAtLeast(procs: seq<Process>, w: Process -> int, i: nat)
    requires forall k :: 0 <= k < |procs| ==> w(procs[k]) >= 0
    ensures Sum(procs, w) >= 0 && (i < |procs| ==> Sum(procs, w) >= w(procs[i]))
  {
    if procs != [] {
      SumAtLeast(procs[..|procs| - 1], w, i);
    }
  }

  /** Weight by weight, one sum is at most the other; equal sums mean equal weights. */
  lemma {:induction false} SumAtMost(procs: seq<Process>, v: Process -> int, w: Process -> int, i: nat)
    requires forall k :: 0 <= k < |procs| ==> v(procs[k]) <= w(procs[k])
    ensures Sum(procs, v) <= Sum(procs, w)
    ensures i < |procs| && v(procs[i]) < w(procs[i]) ==> Sum(procs, v) < Sum(procs, w)
  {
    if procs != [] {
      SumAtMost(procs[..|procs| - 1], v, w, i);
    }
  }

  /** Units of `empty` in a process's hands. */
  function HoldsEmpty(pr: Process): int {
    if pr.Producer? then B(pr.pc == Locking || pr.pc == Inside) else B(pr.pc == Unlocking || pr.pc == Posting)
  }

  function HoldsFull(pr: Process): int {
    if pr.Consumer? then B(pr.pc == Locking || pr.pc == Inside) else B(pr.pc == Unlocking || pr.pc == Posting)
  }

  function HoldsMutex(pr: Process): int {
    B(pr.pc == Inside || pr.pc == Unlocking)
  }

  /** How many nodes a producer has put. */
  function PutCount(pr: Process): int {
    if pr.Producer? then pr.made + B(pr.pc == Unlocking || pr.pc == Posting) else 0
  }

  function Quota(pr: Process): int {
    if pr.Producer? then pr.items + 1 else 0
  }

  /** A producer that has put its stop node; a consumer that has taken one. */
  function StopPut(pr: Process): int {
    B(pr.Producer? && (pr.pc == Done || (pr.made == pr.items && (pr.pc == Unlocking || pr.pc == Posting))))
  }

  function StopTaken(pr: Process): int {
    B(pr.Consumer? && (pr.pc == Done || ((pr.pc == Unlocking || pr.pc == Posting) && IsStop(pr.node))))
  }

  function IsProducer(pr: Process): int {
    B(pr.Producer?)
  }

  function IsConsumer(pr: Process): int {
    B(pr.Consumer?)
  }

  // ---- the invariant ----

  /** Every unit of a semaphore is in the semaphore, in the queue, or in a process's hands. */
  ghost predicate SemaphoresOk(s: State) {
    && s.f <= s.p
    && s.empty + Sum(s.procs, HoldsEmpty) == s.queueSize - (s.p - s.f)
    && s.full + Sum(s.procs, HoldsFull) == s.p - s.f
    && s.mutex + Sum(s.procs, HoldsMutex) == 1
  }

  /** The slots between the cursors hold the nodes put and not yet taken, in order. */
  ghost predicate SlotsOk(s: State)
    requires Fits(s)
  {
    && s.f <= s.p == |s.putLog|
    && (forall k :: s.f <= k < s.p ==> HoldsSlot(s, k))
    && s.takeLog == s.putLog[..s.f]
  }

  ghost predicate HoldsSlot(s: State, k: nat)
    requires Fits(s) && k < |s.putLog|
  {
    ReadSlot(s.que, ITEM_SIZE, SlotOf(s, k)) == s.putLog[k]
  }

  function Stops(log: seq<Item>): nat {
    if log == [] then 0 else Stops(log[..|log| - 1]) + B(IsStop(log[|log| - 1]))
  }

  /** The stop nodes put and taken, producer by producer and consumer by consumer. */
  ghost predicate StopsOk(s: State) {
    && s.f <= |s.putLog|
    && Stops(s.putLog) == Sum(s.procs, StopPut)
    && Stops(s.putLog[..s.f]) == Sum(s.procs, StopTaken)
  }

  /** Which of its nodes a producer has put, in the order of the log. */
  function Ordinals(putBy: seq<(nat, nat)>, i: nat): seq<nat> {
    if putBy == [] then [] else
      var l := |putBy| - 1;
      Ordinals(putBy[..l], i) + if putBy[l].0 == i then [putBy[l].1] else []
  }

  /** 0, 1, ..., n - 1 */
  function UpTo(n: int): seq<nat> {
    if n <= 0 then [] else UpTo(n - 1) + [n - 1]
  }

  /** Each producer's nodes are in the log in order and once; the last node put before every
      producer has finished its work is not the last of all, unless it is a stop node. */
  ghost predicate LogOk(s: State) {
    && |s.putBy| == |s.putLog| == s.p == Sum(s.procs, PutCount)
    && (forall i :: 0 <= i < |s.procs| ==> Ordinals(s.putBy, i) == UpTo(PutCount(s.procs[i])))
    && (forall k :: 0 <= k < |s.putBy| ==> EntryOk(s, k))
    && LastOk(s)
  }

  ghost predicate LastOk(s: State)
    requires |s.putBy| == |s.putLog|
  {
    var l := |s.putLog| - 1;
    l >= 0 && !IsStop(s.putLog[l]) ==> s.putBy[l].0 < |s.procs| && StopPut(s.procs[s.putBy[l].0]) == 0
  }

  ghost predicate EntryOk(s: State, k: nat)
    requires k < |s.putBy| == |s.putLog|
  {
    var i := s.putBy[k].0;
    i < |s.procs| && s.procs[i].Producer? && GoodProcess(s.procs[i]) && s.putLog[k] == ItemOf(s.procs[i], s.putBy[k].1)
  }

  ghost predicate Inv(s: State) {
    Fits(s) && SemaphoresOk(s) && SlotsOk(s) && StopsOk(s) && LogOk(s)
  }

  // ---- every step keeps it ----

  /** Only process `i` changes, and a producer stays the same producer. */
  ghost predicate Moves(s: State, s': State, i: nat) {
    && i < |s.procs| && |s'.procs| == |s.procs| && s'.procs == s.procs[i := s'.procs[i]]
    && s'.queueSize == s.queueSize && |s'.que| == |s.que|
    && (s'.procs[i].Producer? <==> s.procs[i].Producer?)
    && (s.procs[i].Producer? ==> s'.procs[i].id == s.procs[i].id && s'.procs[i].items == s.procs[i].items)
  }

  lemma StepMoves(s: State, i: nat)
    requires Fits(s) && CanStep(s, i)
    ensures Moves(s, DoStep(s, i), i) && Fits(DoStep(s, i))
  {
  }

  lemma SumMoves(s: State, s': State, i: nat, w: Process -> int)
    requires Moves(s, s', i)
    ensures Sum(s'.procs, w) == Sum(s.procs, w) - w(s.procs[i]) + w(s'.procs[i])
  {
    SumUpdate(s.procs, w, i, s'.procs[i]);
  }

  lemma NotNegative(s: State, i: nat)
    ensures Sum(s.procs, HoldsEmpty) >= 0 && (i < |s.procs| ==> Sum(s.procs, HoldsEmpty) >= HoldsEmpty(s.procs[i]))
    ensures Sum(s.procs, HoldsFull) >= 0 && (i < |s.procs| ==> Sum(s.procs, HoldsFull) >= HoldsFull(s.procs[i]))
    ensures Sum(s.procs, HoldsMutex) >= 0 && (i < |s.procs| ==> Sum(s.procs, HoldsMutex) >= HoldsMutex(s.procs[i]))
  {
    SumAtLeast(s.procs, HoldsEmpty, i);
    SumAtLeast(s.procs, HoldsFull, i);
    SumAtLeast(s.procs, HoldsMutex, i);
  }

  lemma StepSemaphores(s: State, i: nat)
    requires Fits(s) && SemaphoresOk(s) && CanStep(s, i)
    ensures SemaphoresOk(DoStep(s, i))
  {
    var s' := DoStep(s, i);
    StepMoves(s, i);
    SumMoves(s, s', i, HoldsEmpty);
    SumMoves(s, s', i, HoldsFull);
    SumMoves(s, s', i, HoldsMutex);
    NotNegative(s, i);
  }

  /** Cursor values less than a whole round apart fall into different slots. */
  lemma SlotsDiffer(n: nat, j: nat, k: nat)
    requires j < k < j + n
    ensures j % n != k % n
  {
    var q := k / n - j / n;
    assert k - j == n * q + (k % n - j % n);
    assert q >= 1 ==> n * q >= n;
    assert q <= 0 ==> n * q <= 0;
  }

  /** A put inside its critical section has a free slot; a take has a node to read. */
  lemma InsideIsSafe(s: State, i: nat)
    requires SemaphoresOk(s) && i < |s.procs| && s.procs[i].pc == Inside
    ensures s.procs[i].Producer? ==> s.p - s.f < s.queueSize
    ensures s.procs[i].Consumer? ==> s.f < s.p
  {
    NotNegative(s, i);
  }

  /** Writing slot p leaves the slots of the nodes between the cursors as they are. */
  lemma SlotAfterPut(size: nat, que: seq<byte>, p: nat, k: nat, item: Item)
    requires size > 0 && |que| == ITEM_SIZE * size && |item| == ITEM_SIZE && k <= p < k + size
    requires ITEM_SIZE * (p % size + 1) <= |que| && ITEM_SIZE * (k % size + 1) <= |que|
    ensures ReadSlot(WriteSlot(que, ITEM_SIZE, p % size, item), ITEM_SIZE, k % size)
      == if k == p then item else ReadSlot(que, ITEM_SIZE, k % size)
  {
    WrittenSlot(que, ITEM_SIZE, p % size, item, k % size);
    if k < p {
      SlotsDiffer(size, k, p);
    }
  }

  lemma PutSlots(s: State, i: nat)
    requires Fits(s) && SemaphoresOk(s) && SlotsOk(s) && CanStep(s, i) && s.procs[i].Producer? && s.procs[i].pc == Inside
    ensures SlotsOk(DoStep(s, i))
  {
    var s' := DoStep(s, i);
    StepMoves(s, i);
    InsideIsSafe(s, i);
    forall k | s'.f <= k < s'.p ensures HoldsSlot(s', k) {
      assert SlotOf(s, s.p) == s.p % s.queueSize && SlotOf(s, k) == k % s.queueSize;
      SlotAfterPut(s.queueSize, s.que, s.p, k, s'.putLog[s.p]);
      if k < s.p {
        assert HoldsSlot(s, k);
      }
    }
  }

  lemma TakeSlots(s: State, i: nat)
    requires Fits(s) && SemaphoresOk(s) && SlotsOk(s) && CanStep(s, i) && s.procs[i].Consumer? && s.procs[i].pc == Inside
    ensures SlotsOk(DoStep(s, i)) && DoStep(s, i).takeLog == s.takeLog + [s.putLog[s.f]]
  {
    var s' := DoStep(s, i);
    StepMoves(s, i);
    InsideIsSafe(s, i);
    assert HoldsSlot(s, s.f);
    forall k | s'.f <= k < s'.p ensures HoldsSlot(s', k) {
      assert HoldsSlot(s, k);
    }
    assert s.putLog[..s.f + 1] == s.putLog[..s.f] + [s.putLog[s.f]];
  }

  lemma StepSlots(s: State, i: nat)
    requires Fits(s) && SemaphoresOk(s) && SlotsOk(s) && CanStep(s, i)
    ensures SlotsOk(DoStep(s, i))
  {
    StepMoves(s, i);
    if s.procs[i].pc == Inside {
      if s.procs[i].Producer? {
        PutSlots(s, i);
      } else {
        TakeSlots(s, i);
      }
    } else {
      forall k | s.f <= k < s.p ensures HoldsSlot(DoStep(s, i), k) {
        assert HoldsSlot(s, k);
      }
    }
  }

  /** What a step does to the log of puts. */
  lemma StepPuts(s: State, i: nat)
    requires Fits(s) && CanStep(s, i)
    ensures var s', pr := DoStep(s, i), s.procs[i];
      if pr.Producer? && pr.pc == Inside
      then s'.putLog == s.putLog + [ItemOf(pr, pr.made)] && s'.putBy == s.putBy + [(i, pr.made)]
      else s'.putLog == s.putLog && s'.putBy == s.putBy
  {
  }

  lemma StopsSnoc(log: seq<Item>, item: Item)
    ensures Stops(log + [item]) == Stops(log) + B(IsStop(item))
  {
    assert (log + [item])[..|log|] == log;
  }

  lemma StopWeights(s: State, i: nat)
    requires Fits(s) && CanStep(s, i)
    ensures var s', pr := DoStep(s, i), s.procs[i];
      && StopPut(s'.procs[i]) == StopPut(pr) + B(pr.Producer? && pr.pc == Inside && pr.made == pr.items)
      && (!(pr.Consumer? && pr.pc == Inside) ==> StopTaken(s'.procs[i]) == StopTaken(pr))
      && (pr.Consumer? && pr.pc == Inside ==> StopTaken(s'.procs[i]) == StopTaken(pr) + B(IsStop(s'.procs[i].node)))
  {
  }

  lemma PutStops(s: State, i: nat)
    requires Fits(s) && StopsOk(s) && CanStep(s, i) && s.procs[i].Producer? && s.procs[i].pc == Inside
    ensures var s' := DoStep(s, i);
      && s'.f == s.f <= |s.putLog| && s'.putLog[..s.f] == s.putLog[..s.f]
      && Stops(s'.putLog) == Stops(s.putLog) + B(s.procs[i].made == s.procs[i].items)
  {
    var pr := s.procs[i];
    StepPuts(s, i);
    StopItem(pr, pr.made);
    StopsSnoc(s.putLog, ItemOf(pr, pr.made));
  }

  lemma TakeStops(s: State, i: nat)
    requires Fits(s) && SemaphoresOk(s) && SlotsOk(s) && StopsOk(s) && CanStep(s, i) && s.procs[i].Consumer? && s.procs[i].pc == Inside
    ensures var s' := DoStep(s, i);
      && s'.putLog == s.putLog && s'.f == s.f + 1 <= |s.putLog|
      && Stops(s'.putLog[..s'.f]) == Stops(s.putLog[..s.f]) + B(IsStop(s'.procs[i].node))
  {
    InsideIsSafe(s, i);
    StepMoves(s, i);
    assert HoldsSlot(s, s.f);
    StopsSnoc(s.putLog[..s.f], s.putLog[s.f]);
    assert s.putLog[..s.f + 1] == s.putLog[..s.f] + [s.putLog[s.f]];
  }

  lemma StepStops(s: State, i: nat)
    requires Fits(s) && SemaphoresOk(s) && SlotsOk(s) && StopsOk(s) && CanStep(s, i)
    ensures StopsOk(DoStep(s, i))
  {
    var s', pr := DoStep(s, i), s.procs[i];
    StepMoves(s, i);
    SumMoves(s, s', i, StopPut);
    SumMoves(s, s', i, StopTaken);
    StopWeights(s, i);
    if pr.pc == Inside {
      if pr.Producer? {
        PutStops(s, i);
      } else {
        TakeStops(s, i);
      }
    } else {
      StepPuts(s, i);
    }
  }

  lemma EntryMoves(s: State, s': State, i: nat, k: nat)
    requires Moves(s, s', i) && Fits(s') && k < |s.putBy| == |s.putLog| && EntryOk(s, k)
    requires k < |s'.putBy| == |s'.putLog| && s'.putBy[k] == s.putBy[k] && s'.putLog[k] == s.putLog[k]
    ensures EntryOk(s', k)
  {
  }

  lemma StepEntries(s: State, i: nat)
    requires Fits(s) && CanStep(s, i) && |s.putBy| == |s.putLog| && forall k :: 0 <= k < |s.putBy| ==> EntryOk(s, k)
    ensures var s' := DoStep(s, i); |s'.putBy| == |s'.putLog| && forall k :: 0 <= k < |s'.putBy| ==> EntryOk(s', k)
  {
    var s' := DoStep(s, i);
    StepMoves(s, i);
    StepPuts(s, i);
    forall k | 0 <= k < |s'.putBy| ensures EntryOk(s', k) {
      if k < |s.putBy| {
        EntryMoves(s, s', i, k);
      }
    }
  }

  lemma StepPutCount(s: State, i: nat)
    requires Fits(s) && CanStep(s, i)
    ensures var s', pr := DoStep(s, i), s.procs[i];
      && PutCount(s'.procs[i]) == PutCount(pr) + B(pr.Producer? && pr.pc == Inside)
      && s'.p == s.p + B(pr.Producer? && pr.pc == Inside)
  {
  }

  lemma OrdinalsSnoc(putBy: seq<(nat, nat)>, i: nat, ord: nat, j: nat)
    ensures Ordinals(putBy + [(i, ord)], j) == Ordinals(putBy, j) + if i == j then [ord] else []
  {
    assert (putBy + [(i, ord)])[..|putBy|] == putBy;
  }

  lemma StepOrdinals(s: State, i: nat, j: nat)
    requires Fits(s) && CanStep(s, i) && j < |s.procs| && Ordinals(s.putBy, j) == UpTo(PutCount(s.procs[j]))
    ensures var s' := DoStep(s, i); Ordinals(s'.putBy, j) == UpTo(PutCount(s'.procs[j]))
  {
    StepMoves(s, i);
    StepPuts(s, i);
    StepPutCount(s, i);
    if s.procs[i].Producer? {
      OrdinalsSnoc(s.putBy, i, s.procs[i].made, j);
    }
  }

  lemma StepLast(s: State, i: nat)
    requires Fits(s) && CanStep(s, i) && |s.putBy| == |s.putLog| && LastOk(s)
    ensures var s' := DoStep(s, i); |s'.putBy| == |s'.putLog| && LastOk(s')
  {
    StepMoves(s, i);
    StepPuts(s, i);
    StopWeights(s, i);
    if s.procs[i].Producer? {
      StopItem(s.procs[i], s.procs[i].made);
    }
  }

  lemma StepLog(s: State, i: nat)
    requires Fits(s) && LogOk(s) && CanStep(s, i)
    ensures LogOk(DoStep(s, i))
  {
    var s' := DoStep(s, i);
    StepMoves(s, i);
    SumMoves(s, s', i, PutCount);
    StepPutCount(s, i);
    StepPuts(s, i);
    StepEntries(s, i);
    StepLast(s, i);
    forall j | 0 <= j < |s'.procs| ensures Ordinals(s'.putBy, j) == UpTo(PutCount(s'.procs[j])) {
      StepOrdinals(s, i, j);
    }
  }

  lemma StepKept(s: State, i: nat)
    requires Inv(s) && CanStep(s, i)
    ensures Inv(DoStep(s, i))
  {
    StepMoves(s, i);
    StepSemaphores(s, i);
    StepSlots(s, i);
    StepStops(s, i);
    StepLog(s, i);
  }

  lemma {:induction false} ZeroSum(procs: seq<Process>, w: Process -> int)
    requires forall k :: 0 <= k < |procs| ==> w(procs[k]) == 0
    ensures Sum(procs, w) == 0
  {
    if procs != [] {
      ZeroSum(procs[..|procs| - 1], w);
    }
  }

  lemma InitKept(s: State)
    requires Init(s)
    ensures Inv(s)
  {
    ZeroSum(s.procs, HoldsEmpty);
    ZeroSum(s.procs, HoldsFull);
    ZeroSum(s.procs, HoldsMutex);
    ZeroSum(s.procs, PutCount);
    ZeroSum(s.procs, StopPut);
    ZeroSum(s.procs, StopTaken);
  }

  lemma NextKept(s: State, s': State)
    requires Inv(s) && Next(s, s')
    ensures Inv(s')
  {
    var i :| CanStep(s, i) && s' == DoStep(s, i);
    StepKept(s, i);
  }

  lemma {:induction false} RunKept(run: seq<State>, i: nat)
    requires IsRun(run) && i < |run|
    ensures Inv(run[i])
  {
    if i == 0 {
      InitKept(run[0]);
    } else {
      RunKept(run, i - 1);
      assert Next(run[i - 1], run[i]);
      NextKept(run[i - 1], run[i]);
    }
  }
}
