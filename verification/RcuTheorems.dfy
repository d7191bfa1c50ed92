/** What the RCU hash map guarantees over whole runs. */
module RcuTheorems {
  import opened HlistMemory
  import opened RcuHashMap
  import opened RcuInvariants
  import opened RcuSteps
  import opened RcuPublish

  // ---- runs ----

  function EmptyBuckets<T>(n: nat, x: T): (r: seq<T>)
    ensures |r| == n && forall i :: 0 <= i < n ==> r[i] == x
  {
    seq(n, _ => x)
  }

  /** The map the module creates: 2^16 buckets selected by the masked hash. */
  lemma CreatedMap() returns (s: State)
    ensures Init(s) && |s.mem.heads| == 0x1_0000 && forall k :: s.index(k) == BucketIndex(k)
  {
    s := State((k: Key) => BucketIndex(k), Memory(EmptyBuckets(BUCKETS_NUM, NULL), map[]), EmptyBuckets(BUCKETS_NUM, 0),
               map[], map[], map[], map[], EmptyBuckets<seq<Ptr>>(BUCKETS_NUM, []), 0, 0);
  }

  lemma StepKept(s: State, a: Action, s': State)
    requires Inv(s) && Step(s, a, s')
    ensures Inv(s')
  {
    match a
    case ABeginInsert(w, key, value, p) => BeginInsertKept(s, w, key, value, p);
    case ABeginRemove(w, key) => BeginRemoveKept(s, w, key);
    case ALock(w) => LockKept(s, w);
    case AAdvance(w) => AdvanceKept(s, w);
    case APublish(w) => PublishKept(s, w);
    case AUnlock(w) => UnlockKept(s, w);
    case ACallRcu(w) => CallRcuKept(s, w);
    case AEnter(r, key) => EnterKept(s, r, key);
    case AReadHead(r) => ReadHeadKept(s, r);
    case AReadNext(r) => ReadNextKept(s, r);
    case AReturn(r) => ReturnKept(s, r);
    case AExit(r) => ExitKept(s, r);
    case AReclaim(p) => ReclaimKept(s, p);
  }

  lemma NextKept(s: State, s': State)
    requires Inv(s) && Next(s, s')
    ensures Inv(s')
  {
    var a :| Step(s, a, s');
    StepKept(s, a, s');
  }

  lemma InitKept(s: State)
    requires Init(s)
    ensures Inv(s)
  {
  }

  lemma {:induction false} RunKept(run: seq<State>, i: nat)
    requires IsRun(run) && i < |run|
    ensures Inv(run[i])
  {
    if i == 0 {
      InitKept(run[0]);
    } else {
      RunKept(run, i - 1);
      assert Next(run[i - 1], run[i]);
      NextKept(run[i - 1], run[i]);
    }
  }

  // ---- linearizability ----

  /** Only a publish changes the abstract map. */
  lemma OnlyPublishUpdates(s: State, a: Action, s': State, key: Key)
    requires Inv(s) && Step(s, a, s') && !a.APublish?
    ensures Shaped(s') && Contents(s', key) == Contents(s, key)
  {
    StepKept(s, a, s');
    var b := s.index(key);
    ChainLinked(s, b);
    ChainLinked(s', b);
    LookupFrame(s.mem, s'.mem, s.chains[b], key);
  }

  /** What one step can add to the notes of a reader that stays in its section. */
  ghost predicate NotesGrow(s: State, s': State, r: Tid)
    requires Shaped(s') && r in s.readers && r in s'.readers
  {
    var rd, rd' := s.readers[r], s'.readers[r];
    && rd'.key == rd.key && s'.index == s.index
    && (forall v :: v in rd'.seen ==> v in rd.seen || v == Contents(s', rd.key))
    && (forall p :: p in rd'.linked ==> p in rd.linked || p in s'.chains[s.index(rd.key)])
  }

  lemma StepGrows(s: State, a: Action, s': State, r: Tid)
    requires Shaped(s) && Step(s, a, s') && r in s.readers && r in s'.readers && Shaped(s')
    ensures NotesGrow(s, s', r)
  {
    match a
    case ABeginInsert(_, _, _, _) =>
    case ABeginRemove(_, _) =>
    case ALock(_) =>
    case AAdvance(_) =>
    case APublish(w) =>
      var b := s.index(s.writers[w].key);
      assert s'.readers[r] == Observe(s.index, s.readers[r], b, s'.mem, s'.chains[b]);
    case AUnlock(_) =>
    case ACallRcu(_) =>
    case AEnter(_, _) =>
    case AReadHead(_) =>
    case AReadNext(_) =>
    case AReturn(_) =>
    case AExit(_) =>
    case AReclaim(_) =>
  }

  lemma NextGrows(s: State, s': State, r: Tid)
    requires Next(s, s') && r in s.readers && r in s'.readers && Shaped(s')
    ensures NotesGrow(s, s', r)
  {
    var a :| Step(s, a, s');
    StepGrows(s, a, s', r);
  }

  /** On entering, the notes are what holds at that instant. */
  lemma NextEnters(s: State, s': State, r: Tid)
    requires Next(s, s') && r !in s.readers && r in s'.readers && Shaped(s')
    ensures var rd := s'.readers[r];
      && (forall v :: v in rd.seen ==> v == Contents(s', rd.key))
      && (forall p :: p in rd.linked ==> p in s'.chains[s'.index(rd.key)])
  {
    var a :| Step(s, a, s');
    assert a.AEnter? && s' == Enter(s, r, a.key);
  }

  /** Thread `r` is in one read-side section from state `i + 1`, when it has just entered, to `j`. */
  ghost predicate Section(run: seq<State>, i: nat, j: nat, r: Tid) {
    && i < j < |run|
    && r !in run[i].readers
    && forall k :: i < k <= j ==> r in run[k].readers
  }

  lemma NotesGrowAt(run: seq<State>, i: nat, j: nat, r: Tid)
    requires IsRun(run) && Section(run, i, j, r) && i + 1 < j
    ensures Shaped(run[j]) && NotesGrow(run[j - 1], run[j], r)
  {
    RunKept(run, j);
    assert Next(run[j - 1], run[j]);
    NextGrows(run[j - 1], run[j], r);
  }

  lemma NotesAtEntry(run: seq<State>, i: nat, r: Tid)
    requires IsRun(run) && Section(run, i, i + 1, r)
    ensures Shaped(run[i + 1])
    ensures var s' := run[i + 1]; var rd := s'.readers[r];
      && (forall v :: v in rd.seen ==> v == Contents(s', rd.key))
      && (forall p :: p in rd.linked ==> p in s'.chains[s'.index(rd.key)])
  {
    var j := i + 1;
    RunKept(run, j);
    assert Next(run[j - 1], run[j]);
    NextEnters(run[i], run[j], r);
  }

  lemma {:induction false} SeenAtSomeInstant(run: seq<State>, i: nat, j: nat, r: Tid, v: Option<Value>) returns (k: nat)
    requires IsRun(run) && Section(run, i, j, r) && v in run[j].readers[r].seen
    ensures i < k <= j && Shaped(run[k]) && Contents(run[k], run[j].readers[r].key) == v
  {
    if j == i + 1 {
      NotesAtEntry(run, i, r);
      k := j;
    } else {
      NotesGrowAt(run, i, j, r);
      if v in run[j - 1].readers[r].seen {
        k := SeenAtSomeInstant(run, i, j - 1, r, v);
      } else {
        k := j;
      }
    }
  }

  lemma {:induction false} LinkedAtSomeInstant(run: seq<State>, i: nat, j: nat, r: Tid, p: Ptr) returns (k: nat)
    requires IsRun(run) && Section(run, i, j, r) && p in run[j].readers[r].linked
    ensures i < k <= j && Shaped(run[k]) && p in run[k].chains[run[k].index(run[j].readers[r].key)]
  {
    if j == i + 1 {
      NotesAtEntry(run, i, r);
      k := j;
    } else {
      NotesGrowAt(run, i, j, r);
      if p in run[j - 1].readers[r].linked {
        k := LinkedAtSomeInstant(run, i, j - 1, r, p);
      } else {
        k := j;
      }
    }
  }

  /** A lock-free get answers what a sequential map would have answered at some instant inside
      its own read-side section: a hit with the value the key had then, a miss if it was absent. */
  lemma GetIsLinearizable(run: seq<State>, i: nat, j: nat, r: Tid) returns (k: nat)
    requires IsRun(run) && Section(run, i, j, r) && run[j].readers[r].pc.Done?
    ensures i < k <= j && Shaped(run[k])
    ensures Contents(run[k], run[j].readers[r].key) == run[j].readers[r].pc.result
  {
    RunKept(run, j);
    assert ReaderOk(run[j], run[j].readers[r], r);
    k := SeenAtSomeInstant(run, i, j, r, run[j].readers[r].pc.result);
  }

  /** Every entry a reader stands on was linked in its bucket at some instant since it entered. */
  lemma VisitedWasLinked(run: seq<State>, i: nat, j: nat, r: Tid) returns (k: nat)
    requires IsRun(run) && Section(run, i, j, r)
    requires run[j].readers[r].pc.AtNode? && run[j].readers[r].pc.cur != NULL
    ensures i < k <= j && Shaped(run[k])
    ensures run[j].readers[r].pc.cur in run[k].chains[run[k].index(run[j].readers[r].key)]
  {
    RunKept(run, j);
    assert ReaderOk(run[j], run[j].readers[r], r);
    k := LinkedAtSomeInstant(run, i, j, r, run[j].readers[r].pc.cur);
  }

  /** A key present at every instant since the reader entered is still ahead of its cursor. */
  lemma PresentKeyStaysReachable(run: seq<State>, i: nat, j: nat, r: Tid)
    requires IsRun(run) && Section(run, i, j, r) && run[j].readers[r].pc.AtNode?
    requires forall k :: i < k <= j && Shaped(run[k]) ==> Contents(run[k], run[j].readers[r].key) != None
    ensures Hits(run[j].mem, run[j].readers[r].pc.cur, run[j].readers[r].key, run[j].readers[r].budget)
  {
    RunKept(run, j);
    assert ReaderOk(run[j], run[j].readers[r], r);
    if None in run[j].readers[r].seen {
      var k := SeenAtSomeInstant(run, i, j, r, None);
    }
  }

  // ---- memory safety ----

  /** No step faults: in every reachable state a traversing thread stands on allocated memory, so
      it can read on or has arrived; a writer's own entry is allocated when it is published. */
  lemma TraversalsAreSafe(run: seq<State>, i: nat)
    requires IsRun(run) && i < |run|
    ensures forall r :: r in run[i].readers && run[i].readers[r].pc.AtNode? ==>
      && (run[i].readers[r].pc.cur == NULL || run[i].readers[r].pc.cur in run[i].mem.nodes)
      && (CanReadNext(run[i], r) || CanReturn(run[i], r))
    ensures forall w :: w in run[i].writers && run[i].writers[w].Scanning? ==> CanAdvance(run[i], w) || CanPublish(run[i], w)
  {
    var s := run[i];
    RunKept(run, i);
    forall r | r in s.readers && s.readers[r].pc.AtNode? ensures s.readers[r].pc.cur == NULL || s.readers[r].pc.cur in s.mem.nodes {
      assert ReaderOk(s, s.readers[r], r);
      assert s.readers[r].pc.cur != NULL ==> Protected(s, s.readers[r], r, s.readers[r].pc.cur);
    }
    forall w | w in s.writers && s.writers[w].Scanning? ensures CanAdvance(s, w) || CanPublish(s, w) {
      assert WriterOk(s, w);
      ChainLinked(s, s.index(s.writers[w].key));
    }
  }

  /** Freeing an entry takes it from no list, no writer and no reader; it was allocated, and after
      it the entry is gone, so it can only be freed again after it has been allocated again. */
  lemma ReclaimIsSafe(run: seq<State>, i: nat, p: Ptr)
    requires IsRun(run) && i < |run| && CanReclaim(run[i], p)
    ensures var s, s' := run[i], Reclaim(run[i], p);
      && p in s.mem.nodes && p !in s'.mem.nodes && s'.frees == s.frees + 1 && !CanReclaim(s', p)
      && (forall r :: r in s.readers ==> p !in s.readers[r].linked && s.readers[r].pc != AtNode(p))
      && (forall b :: 0 <= b < |s.chains| ==> p !in s.chains[b])
      && (forall w :: w in s.writers ==> p != Unpublished(s.writers[w]) && p != Unlinked(s.writers[w]))
  {
    var s := run[i];
    RunKept(run, i);
    ReclaimableUnreachable(s, p);
    forall r | r in s.readers ensures s.readers[r].pc != AtNode(p) {
      assert ReaderOk(s, s.readers[r], r);
    }
  }

  // ---- conservation ----

  function SumOf(num: seq<int>): int {
    if num == [] then 0 else SumOf(num[..|num| - 1]) + num[|num| - 1]
  }

  ghost function LinkedBelow(chains: seq<seq<Ptr>>, k: nat): set<Ptr>
    requires k <= |chains|
  {
    set b, p | 0 <= b < k && p in chains[b] :: p
  }

  ghost function PendingEntries(s: State): set<Ptr> {
    set p | p in s.phase && s.phase[p].Pending?
  }

  ghost function HeldEntries(s: State): set<Ptr> {
    set p | p in s.phase && (s.phase[p].Private? || s.phase[p].Retired?)
  }

  lemma LinkedInBucket(s: State, k: nat)
    requires Inv(s) && k < |s.chains|
    ensures |LinkedBelow(s.chains, k + 1)| == |LinkedBelow(s.chains, k)| + s.num[k]
  {
    ChainLinked(s, k);
    DistinctCount(s.chains[k]);
    forall b, p | 0 <= b < k && p in s.chains[b] ensures p !in s.chains[k] {
      OtherBucket(s, b, k, NULL);
    }
    OneMoreBucket(s.chains, k);
  }

  lemma OneMoreBucket(chains: seq<seq<Ptr>>, k: nat)
    requires k < |chains| && forall b, p :: 0 <= b < k && p in chains[b] ==> p !in chains[k]
    ensures |LinkedBelow(chains, k + 1)| == |LinkedBelow(chains, k)| + |Elements(chains[k])|
  {
    assert LinkedBelow(chains, k + 1) == LinkedBelow(chains, k) + Elements(chains[k]);
    assert LinkedBelow(chains, k) !! Elements(chains[k]);
  }

  lemma {:induction false} LinkedCount(s: State, k: nat)
    requires Inv(s) && k <= |s.chains|
    ensures |LinkedBelow(s.chains, k)| == SumOf(s.num[..k])
  {
    if k == 0 {
      assert LinkedBelow(s.chains, 0) == {};
    } else {
      LinkedCount(s, k - 1);
      LinkedInBucket(s, k - 1);
      assert s.num[..k][..k - 1] == s.num[..k - 1];
    }
  }

  lemma {:induction false} DistinctCount(c: seq<Ptr>)
    requires Distinct(c)
    ensures |Elements(c)| == |c|
  {
    if c != [] {
      var l := |c| - 1;
      DistinctCount(c[..l]);
      assert Elements(c) == Elements(c[..l]) + {c[l]};
    }
  }

  lemma LinkedPhase(s: State, p: Ptr)
    requires Inv(s)
    ensures p in LinkedBelow(s.chains, |s.chains|) <==> p in s.phase && s.phase[p].Linked?
  {
    if p in LinkedBelow(s.chains, |s.chains|) {
      var b :| 0 <= b < |s.chains| && p in s.chains[b];
      ChainLinked(s, b);
    } else if p in s.phase {
      assert PhaseOk(s, p);
    }
  }

  lemma SplitByPhase(s: State, linked: set<Ptr>)
    requires forall p :: p in linked <==> p in s.phase && s.phase[p].Linked?
    ensures |s.phase.Keys| == |linked| + |PendingEntries(s)| + |HeldEntries(s)|
  {
    assert s.phase.Keys == linked + PendingEntries(s) + HeldEntries(s);
    assert |linked + PendingEntries(s)| == |linked| + |PendingEntries(s)|;
  }

  /** In every reachable state: allocated = linked + waiting for readers + in a writer's hands + freed,
      the linked entries being counted by the buckets' `num`; without a writer nothing is in hand. */
  lemma EntriesConserved(run: seq<State>, i: nat)
    requires IsRun(run) && i < |run|
    ensures var s := run[i];
      && s.allocs == SumOf(s.num) + |PendingEntries(s)| + |HeldEntries(s)| + s.frees
      && (s.writers == map[] ==> HeldEntries(s) == {})
  {
    var s := run[i];
    RunKept(run, i);
    LinkedCount(s, |s.chains|);
    forall p ensures p in LinkedBelow(s.chains, |s.chains|) <==> p in s.phase && s.phase[p].Linked? {
      LinkedPhase(s, p);
    }
    SplitByPhase(s, LinkedBelow(s.chains, |s.chains|));
    assert |s.mem.nodes| == |s.phase.Keys|;
    assert s.num[..|s.num|] == s.num;
    forall p | p in HeldEntries(s) ensures s.writers != map[] {
      assert PhaseOk(s, p);
    }
  }

  // ---- readers are never delayed ----

  /** How often the reader's position changed between two states of a run. */
  ghost function Visits(run: seq<State>, r: Tid, h: nat, j: nat): nat
    requires h <= j < |run| && forall k :: h <= k <= j ==> r in run[k].readers
    decreases j - h
  {
    if h == j then 0
    else Visits(run, r, h, j - 1) + if run[j].readers[r].pc == run[j - 1].readers[r].pc then 0 else 1
  }

  /** Only the reader's own moves change its position, and each costs one of its visits. */
  lemma NextSpends(s: State, s': State, r: Tid)
    requires Next(s, s') && r in s.readers && r in s'.readers
    requires s.readers[r].pc.AtNode? && s'.readers[r].pc.AtNode? && Ends(s.mem, s.readers[r].pc.cur, s.readers[r].budget)
    ensures s'.readers[r].key == s.readers[r].key
    ensures s.readers[r].budget == s'.readers[r].budget + if s'.readers[r].pc == s.readers[r].pc then 0 else 1
  {
    var a :| Step(s, a, s');
    if a == AReadNext(r) {
      NextDiffers(s.mem, s.readers[r].pc.cur, s.readers[r].budget);
    } else if a.APublish? {
      var b := s.index(s.writers[a.w].key);
      assert s'.readers[r] == Observe(s.index, s.readers[r], b, s'.mem, s'.chains[b]);
    } else {
      assert s'.readers[r] == s.readers[r];
    }
  }

  /** From an entry with a bounded traversal ahead, `next` leads elsewhere. */
  lemma {:induction false} NextDiffers(m: Memory, p: Ptr, n: nat)
    requires p != NULL && Ends(m, p, n)
    ensures p in m.nodes && m.nodes[p].next != p
    decreases n
  {
    if m.nodes[p].next == p {
      NextDiffers(m, p, n - 1);
    }
  }

  /** However many updates run beside it, a get follows at most as many `next` pointers as the
      bucket held entries when the get read its head. */
  lemma {:induction false} GetIsBounded(run: seq<State>, h: nat, j: nat, r: Tid)
    requires IsRun(run) && h < j < |run| && Shaped(run[h])
    requires r in run[h].readers && run[h].readers[r].pc.Entered?
    requires forall k :: h < k <= j ==> r in run[k].readers && run[k].readers[r].pc.AtNode?
    ensures var b := run[h].index(run[h].readers[r].key);
      Visits(run, r, h + 1, j) + run[j].readers[r].budget == |run[h].chains[b]|
  {
    if j > h + 1 {
      GetIsBounded(run, h, j - 1, r);
      SpendsAt(run, j, r);
    } else {
      assert Next(run[j - 1], run[j]);
      NextReadsHead(run[h], run[j], r);
    }
  }

  lemma SpendsAt(run: seq<State>, j: nat, r: Tid)
    requires IsRun(run) && 0 < j < |run| && r in run[j - 1].readers && r in run[j].readers
    requires run[j - 1].readers[r].pc.AtNode? && run[j].readers[r].pc.AtNode?
    ensures run[j - 1].readers[r].budget == run[j].readers[r].budget + if run[j].readers[r].pc == run[j - 1].readers[r].pc then 0 else 1
  {
    RunKept(run, j - 1);
    assert ReaderOk(run[j - 1], run[j - 1].readers[r], r);
    assert Next(run[j - 1], run[j]);
    NextSpends(run[j - 1], run[j], r);
  }

  lemma NextReadsHead(s: State, s': State, r: Tid)
    requires Next(s, s') && r in s.readers && r in s'.readers
    requires s.readers[r].pc.Entered? && s'.readers[r].pc.AtNode?
    ensures s'.readers[r].budget == |s.chains[s.index(s.readers[r].key)]|
  {
    var a :| Step(s, a, s');
  }
}
