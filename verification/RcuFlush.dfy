/** Emptying the map: pe_map_flush detaches every bucket and then frees the detached entries. */
module RcuFlush {
  import opened HlistMemory
  import opened RcuHashMap
  import opened RcuInvariants
  import opened RcuSteps
  import opened RcuPublish
  import opened RcuTheorems

  function SetHead(m: Memory, b: Index, p: Ptr): Memory {
    if b < |m.heads| then m.(heads := m.heads[b := p]) else m
  }

  function Free(m: Memory, p: Ptr): Memory {
    m.(nodes := m.nodes - {p})
  }

  /** The memory after bucket `b` has been detached and the first `k` of its entries `c` have been
      unlinked and freed.  The back pointer of the first entry still aims at the bucket's head. */
  function Drain(m: Memory, b: Index, c: seq<Ptr>, k: nat): (d: Memory)
    requires k <= |c|
    ensures |d.heads| == |m.heads|
  {
    if k == 0 then SetHead(m, b, NULL)
    else
      var before := Drain(m, b, c, k - 1);
      if c[k - 1] in before.nodes then Free(DelRcu(before, c[k - 1]), c[k - 1]) else before
  }

  /** The deletion of the first entry writes the head, whatever it held. */
  lemma DelIgnoresHead(m: Memory, b: Index, p: Ptr, x: Ptr)
    requires p in m.nodes && m.nodes[p].pprev == HeadSlot(b) && b < |m.heads|
    ensures DelRcu(SetHead(m, b, x), p) == DelRcu(m, p)
  {
    assert m.heads[b := x][b := m.nodes[p].next] == m.heads[b := m.nodes[p].next];
  }

  /** Unlinking and freeing the first entry of a list. */
  lemma FreeFirst(m: Memory, b: Index, c: seq<Ptr>)
    requires IsList(m, b, c) && c != []
    ensures c[0] in m.nodes && m.nodes[c[0]].pprev == HeadSlot(b)
    ensures FirstFreed(m, Free(DelRcu(m, c[0]), c[0]), b, c)
  {
    assert IsLink(m, b, c, 0);
    DelRelinks(m, b, c, 0);
    DelShape(m, DelRcu(m, c[0]), b, c);
  }

  ghost predicate FirstFreed(m: Memory, d: Memory, b: Index, c: seq<Ptr>)
    requires c != []
  {
    && d.heads == (if b < |m.heads| then m.heads[b := At(c, 1)] else m.heads)
    && d.nodes.Keys == m.nodes.Keys - {c[0]}
    && (forall p :: p in m.nodes && p !in c ==> d.nodes[p] == m.nodes[p])
    && IsList(d, b, c[1..])
  }

  lemma DelShape(m: Memory, e: Memory, b: Index, c: seq<Ptr>)
    requires IsList(m, b, c) && c != [] && Relinked(m, e, b, c, 0, At(c, 1), SlotAt(b, c, 0), {})
    ensures FirstFreed(m, Free(e, c[0]), b, c)
  {
    DeletedList(m, b, c, 0, e);
    assert c[..0] + c[1..] == c[1..];
    forall p | p in c[1..] ensures p != c[0] && p in e.nodes {
      var i :| 0 <= i < |c| - 1 && c[1..][i] == p;
      assert IsLink(e, b, c[1..], i);
    }
    ListFrame(e, Free(e, c[0]), b, c[1..]);
  }

  /** After the first deletion the bucket's head leads to the entries that remain to be freed. */
  ghost predicate Drained(m: Memory, d: Memory, b: Index, c: seq<Ptr>, k: nat)
    requires k <= |c| && b < |m.heads|
  {
    && d.heads == m.heads[b := if k == 0 then NULL else At(c, k)]
    && d.nodes.Keys == m.nodes.Keys - Elements(c[..k])
    && (forall p :: p in m.nodes && p !in c ==> p in d.nodes && d.nodes[p] == m.nodes[p])
    && IsList(SetHead(d, b, At(c, k)), b, c[k..])
  }

  lemma {:induction false} DrainKeepsRest(m: Memory, b: Index, c: seq<Ptr>, k: nat)
    requires IsList(m, b, c) && k <= |c|
    ensures Drained(m, Drain(m, b, c, k), b, c, k)
  {
    if k == 0 {
      assert c[0..] == c && SetHead(SetHead(m, b, NULL), b, At(c, 0)).heads == m.heads;
    } else {
      DrainKeepsRest(m, b, c, k - 1);
      DrainStep(m, Drain(m, b, c, k - 1), b, c, k);
    }
  }

  lemma DrainStep(m: Memory, e: Memory, b: Index, c: seq<Ptr>, k: nat)
    requires IsList(m, b, c) && 0 < k <= |c| && Drained(m, e, b, c, k - 1)
    ensures c[k - 1] in e.nodes && Drained(m, Free(DelRcu(e, c[k - 1]), c[k - 1]), b, c, k)
  {
    var rest := c[k - 1..];
    var f := SetHead(e, b, rest[0]);
    FreeFirst(f, b, rest);
    DelIgnoresHead(e, b, rest[0], rest[0]);
    OneMoreDrained(m, e, Free(DelRcu(e, c[k - 1]), c[k - 1]), b, c, k);
  }

  lemma OneMoreDrained(m: Memory, e: Memory, d: Memory, b: Index, c: seq<Ptr>, k: nat)
    requires b < |m.heads| && 0 < k <= |c| && Drained(m, e, b, c, k - 1)
    requires FirstFreed(SetHead(e, b, c[k - 1]), d, b, c[k - 1..])
    ensures Drained(m, d, b, c, k)
  {
    assert c[k - 1..][1..] == c[k..] && At(c[k - 1..], 1) == At(c, k);
    assert Elements(c[..k]) == Elements(c[..k - 1]) + {c[k - 1]};
    assert SetHead(d, b, At(c, k)) == d;
  }

  /** What the loop that frees a bucket finds at its `k`-th entry. */
  lemma DrainNext(m: Memory, b: Index, c: seq<Ptr>, k: nat)
    requires IsList(m, b, c) && k < |c|
    ensures var d := Drain(m, b, c, k);
      && c[k] != NULL && c[k] in d.nodes && d.nodes[c[k]].next == At(c, k + 1)
      && Drain(m, b, c, k + 1) == Free(DelRcu(d, c[k]), c[k])
  {
    DrainKeepsRest(m, b, c, k);
    assert IsLink(SetHead(Drain(m, b, c, k), b, At(c, k)), b, c[k..], 0);
  }

  /** While a bucket is being drained, its head shows an entry that is still to be freed exactly
      when the bucket had at least two entries. */
  lemma DrainExposesEntries(m: Memory, b: Index, c: seq<Ptr>)
    requires IsList(m, b, c)
    ensures (exists k :: 0 <= k < |c| && HeadShows(Drain(m, b, c, k), b, c[k])) <==> |c| >= 2
  {
    forall k | 0 <= k < |c| ensures Drain(m, b, c, k).heads[b] == (if k == 0 then NULL else c[k]) && c[k] != NULL {
      DrainKeepsRest(m, b, c, k);
      assert IsLink(m, b, c, k);
    }
    if |c| >= 2 {
      assert HeadShows(Drain(m, b, c, 1), b, c[1]);
    }
  }

  // ---- a map in which a bucket has two entries ----

  lemma RunGrows(run: seq<State>, a: Action, s': State) returns (longer: seq<State>)
    requires IsRun(run) && Shaped(run[|run| - 1]) && Step(run[|run| - 1], a, s')
    ensures IsRun(longer) && longer == run + [s']
  {
    longer := run + [s'];
    forall i {:trigger Next(longer[i - 1], longer[i])} | 0 < i < |longer| ensures Next(longer[i - 1], longer[i]) {
      if i < |run| {
        assert Next(run[i - 1], run[i]);
      }
    }
  }

  /** Nobody is inside the map, and bucket `b` holds exactly `c`. */
  ghost predicate Holds(s: State, b: Index, c: seq<Ptr>) {
    && Shaped(s) && s.writers == map[] && s.locks == map[] && s.readers == map[]
    && b < |s.chains| && s.chains[b] == c && s.mem.heads[b] == At(c, 0)
  }

  /** An insert of `key` as entry `p`, up to where it is about to publish. */
  lemma InsertScans(run: seq<State>, key: Key, p: Ptr) returns (longer: seq<State>)
    requires IsRun(run) && p != NULL
    requires var s := run[|run| - 1];
      && Shaped(s) && s.writers == map[] && s.locks == map[] && p !in s.mem.nodes
      && var q := s.mem.heads[s.index(key)];
         q == NULL || (q in s.mem.nodes && s.mem.nodes[q].key != key && s.mem.nodes[q].next == NULL)
    ensures IsRun(longer) && longer[0] == run[0]
    ensures var s, s' := run[|run| - 1], longer[|longer| - 1];
      && Shaped(s') && s'.index == s.index && s'.chains == s.chains && s'.readers == s.readers
      && s'.mem == s.mem.(nodes := s.mem.nodes[p := Node(key, 0, NULL, Poison)])
      && s'.locks == map[s.index(key) := 0] && 0 in s'.writers && s'.writers.Keys == {0}
      && s'.writers[0].Scanning? && s'.writers[0].key == key && s'.writers[0].op == Insert(p) && s'.writers[0].cur == NULL
  {
    var s := run[|run| - 1];
    var s1 := BeginInsert(s, 0, key, 0, p);
    longer := RunGrows(run, ABeginInsert(0, key, 0, p), s1);
    var s2 := Lock(s1, 0);
    longer := RunGrows(longer, ALock(0), s2);
    if s.mem.heads[s.index(key)] != NULL {
      longer := RunGrows(longer, AAdvance(0), Advance(s2, 0));
    }
  }

  /** The publish of an entry at the head, and the unlock. */
  lemma PublishesHead(s: State, b: Index, c: seq<Ptr>, p: Ptr)
    requires Shaped(s) && CanPublish(s, 0) && s.writers.Keys == {0} && s.readers == map[] && s.locks == map[b := 0]
    requires s.writers[0].op == Insert(p) && s.writers[0].cur == NULL && s.index(s.writers[0].key) == b && b < |s.chains|
    requires p != NULL && s.chains[b] == c && s.mem.heads[b] == At(c, 0) && p !in c
    ensures var s' := Publish(s, 0);
      && CanUnlock(s', 0) && Shaped(s') && s'.index == s.index
      && Holds(Unlock(s', 0), b, [p] + c) && s'.mem.nodes.Keys == s.mem.nodes.Keys
      && s'.mem.nodes[p].key == s.mem.nodes[p].key && s'.mem.nodes[p].next == At(c, 0)
  {
  }

  lemma InsertLinks(run: seq<State>, b: Index, c: seq<Ptr>, key: Key, p: Ptr) returns (longer: seq<State>)
    requires IsRun(run) && p != NULL && p !in c
    requires var s := run[|run| - 1];
      && Holds(s, b, c) && s.index(key) == b && p !in s.mem.nodes
      && (c == [] || (c[0] != NULL && c[0] in s.mem.nodes && s.mem.nodes[c[0]].key != key && s.mem.nodes[c[0]].next == NULL))
    ensures IsRun(longer) && longer[0] == run[0] && longer[|longer| - 1].index == run[|run| - 1].index
    ensures var s := longer[|longer| - 1];
      && Holds(s, b, [p] + c) && p in s.mem.nodes && s.mem.nodes[p].key == key && s.mem.nodes[p].next == At(c, 0)
      && s.mem.nodes.Keys == run[|run| - 1].mem.nodes.Keys + {p}
  {
    longer := InsertScans(run, key, p);
    var s3 := longer[|longer| - 1];
    PublishesHead(s3, b, c, p);
    var s4 := Publish(s3, 0);
    longer := RunGrows(longer, APublish(0), s4);
    longer := RunGrows(longer, AUnlock(0), Unlock(s4, 0));
  }

  lemma CastBack(x: int, k: bv64)
    requires x == k as int
    ensures x as bv64 == k
  {
  }

  lemma SharedBits()
    ensures (0 % TWO_64) as bv64 == 0 && (0x1_0001 % TWO_64) as bv64 == 0x1_0001
  {
    CastBack(0x1_0001 % TWO_64, 0x1_0001);
  }

  lemma SharedHash()
    ensures EntryHash(0) & 0xFFFF == 0 && EntryHash(0x1_0001) & 0xFFFF == 0
    ensures ((0 as bv64) as bv16) as nat == 0
  {
  }

  lemma SharedBucket()
    ensures BucketIndex(0) == 0 && BucketIndex(0x1_0001) == 0
  {
    SharedBits();
    SharedHash();
  }

  lemma LastIsList(run: seq<State>, b: Index, c: seq<Ptr>)
    requires IsRun(run) && Holds(run[|run| - 1], b, c)
    ensures IsList(run[|run| - 1].mem, b, c)
  {
    RunKept(run, |run| - 1);
    ChainLinked(run[|run| - 1], b);
  }

  lemma FirstInsert(s: State) returns (run: seq<State>)
    requires Init(s) && 0 < |s.mem.heads| && s.index(0) == 0
    ensures IsRun(run) && run[0] == s && run[|run| - 1].index == s.index
    ensures var s' := run[|run| - 1];
      Holds(s', 0, [1]) && s'.mem.nodes.Keys == {1} && s'.mem.nodes[1].key == 0 && s'.mem.nodes[1].next == NULL
  {
    run := InsertLinks([s], 0, [], 0, 1);
    assert [1] + [] == [1];
  }

  lemma SecondInsert(before: seq<State>, key: Key) returns (run: seq<State>)
    requires IsRun(before) && key != 0 && before[|before| - 1].index(key) == 0
    requires var s := before[|before| - 1];
      Holds(s, 0, [1]) && s.mem.nodes.Keys == {1} && s.mem.nodes[1].key == 0 && s.mem.nodes[1].next == NULL
    ensures IsRun(run) && run[0] == before[0] && Holds(run[|run| - 1], 0, [2, 1])
  {
    run := InsertLinks(before, 0, [1], key, 2);
    assert [2] + [1] == [2, 1];
  }

  /** Keys 0 and 0x1_0001 share bucket 0 of the map the module creates: once both are inserted and nobody
      is inside, a flush shows there an entry that it is about to free. */
  lemma TwoInBucket() returns (run: seq<State>)
    ensures IsRun(run) && |run[0].mem.heads| == BUCKETS_NUM && forall k :: run[0].index(k) == BucketIndex(k)
    ensures var s := run[|run| - 1];
      && Holds(s, 0, [2, 1]) && IsList(s.mem, 0, [2, 1])
      && exists k :: 0 <= k < 2 && HeadShows(Drain(s.mem, 0, [2, 1], k), 0, [2, 1][k])
  {
    var s := CreatedMap();
    SharedBucket();
    run := FirstInsert(s);
    run := SecondInsert(run, 0x1_0001);
    LastIsList(run, 0, [2, 1]);
    DrainExposesEntries(run[|run| - 1].mem, 0, [2, 1]);
  }

  ghost predicate HeadShows(m: Memory, b: Index, p: Ptr) {
    b < |m.heads| && m.heads[b] == p
  }

  /** Every bucket is a list, counted by `num`; the other entries wait for their callbacks. */
  ghost predicate QuietMap(mem: Memory, num: seq<int>, pending: set<Ptr>, chains: seq<seq<Ptr>>) {
    && |num| == |chains| == |mem.heads|
    && (forall b :: 0 <= b < |chains| ==> IsList(mem, b, chains[b]) && num[b] == |chains[b]|)
    && Disjoint(chains)
    && (forall b :: 0 <= b < |chains| ==> Elements(chains[b]) !! pending)
    && mem.nodes.Keys == Union(chains, 0) + pending
  }

  /** A map that no reader or writer is using.  `pending` are the entries whose callbacks have not
      run yet; the auxiliary `chains` are the lists of the buckets. */
  class PeHashmap {
    var mem: Memory
    var num: seq<int>
    var pending: set<Ptr>
    ghost var chains: seq<seq<Ptr>>

    ghost predicate Quiet()
      reads this
    {
      QuietMap(mem, num, pending, chains)
    }

    /** The map as a quiet state of the concurrent model leaves it. */
    constructor (s: State)
      requires Inv(s) && s.writers == map[] && s.readers == map[]
      ensures Quiet() && mem == s.mem && num == s.num && chains == s.chains && pending == PendingEntries(s)
    {
      mem, num, chains := s.mem, s.num, s.chains;
      pending := set p | p in s.phase && s.phase[p].Pending?;
      new;
      QuietState(s);
    }

    /** Detaches every bucket, keeping the first entries, and waits for readers and callbacks. */
    method Detach() returns (saved: seq<Ptr>)
      requires Quiet()
      modifies this`mem, this`num, this`pending
      ensures |mem.heads| == old(|mem.heads|) && |num| == |mem.heads| && pending == {}
      ensures Detached(mem, chains, saved, 0) && forall b :: 0 <= b < |num| ==> num[b] == 0
    {
      ghost var m0 := mem;
      saved := mem.heads;
      var i := 0;
      while i < |mem.heads|
        invariant i <= |mem.heads| == |saved| == |num| == |chains| && mem.nodes == m0.nodes && pending == old(pending)
        invariant forall b :: 0 <= b < |saved| ==> saved[b] == m0.heads[b]
        invariant forall b :: 0 <= b < |saved| ==> mem.heads[b] == (if b < i then NULL else m0.heads[b])
        invariant forall b :: 0 <= b < i ==> num[b] == 0
      {
        saved := saved[i := mem.heads[i]];
        mem := SetHead(mem, i, NULL);
        num := num[i := 0];
        i := i + 1;
      }
      // synchronize_rcu and rcu_barrier: every callback queued so far has run.
      mem := mem.(nodes := mem.nodes - pending);
      pending := {};
      forall b | 0 <= b < |chains| ensures DetachedList(mem, chains, saved, b) {
        KeptDetached(m0, mem, saved[b], b, chains[b]);
      }
    }

    /** Frees the detached list `c` of bucket `b`, whose first entry is `first`. */
    method FreeDetached(b: Index, first: Ptr, ghost c: seq<Ptr>) returns (count: nat)
      requires b < |mem.heads| && IsList(SetHead(mem, b, first), b, c)
      requires mem.heads[b] == NULL
      modifies this`mem
      ensures mem == Drain(SetHead(old(mem), b, first), b, c, |c|) && count == |c|
    {
      ghost var m0 := SetHead(mem, b, first);
      assert SetHead(m0, b, NULL).heads == mem.heads;
      count := 0;
      var entry := first;
      while entry != NULL
        invariant count <= |c| && entry == At(c, count) && mem == Drain(m0, b, c, count)
        decreases |c| - count
      {
        DrainNext(m0, b, c, count);
        var next := mem.nodes[entry].next;
        mem := DelRcu(mem, entry);
        mem := Free(mem, entry);
        count := count + 1;
        entry := next;
      }
      if count < |c| {
        DrainNext(m0, b, c, count);
      }
    }

    /** The second loop: frees bucket after bucket what was detached. */
    method FreeAll(saved: seq<Ptr>, ghost cs: seq<seq<Ptr>>) returns (count: nat)
      requires Detached(mem, cs, saved, 0)
      modifies this`mem
      ensures mem.nodes == map[] && |mem.heads| == old(|mem.heads|) && count == |Union(cs, 0)|
      ensures forall b :: 0 <= b < |mem.heads| ==> mem.heads[b] == NULL
    {
      count := 0;
      var i := 0;
      while i < |mem.heads|
        invariant i <= |mem.heads| == old(|mem.heads|) && Detached(mem, cs, saved, i)
        invariant count + |Union(cs, i)| == |Union(cs, 0)|
      {
        ghost var m := mem;
        assert DetachedList(m, cs, saved, i);
        var freed := FreeDetached(i, saved[i], cs[i]);
        BucketFreed(m, mem, i, cs, saved);
        count := count + freed;
        i := i + 1;
      }
      assert Union(cs, i) == {};
    }

    /** Detaches every bucket, waits for readers and callbacks, and frees what was detached. */
    method Flush() returns (count: nat)
      requires Quiet()
      modifies this
      ensures Quiet() && mem.nodes == map[] && pending == {}
      ensures |mem.heads| == old(|mem.heads|) && |num| == old(|num|)
      ensures forall b :: 0 <= b < |mem.heads| ==> mem.heads[b] == NULL && num[b] == 0
      ensures count == |Union(old(chains), 0)| == SumOf(old(num))
    {
      LinkedIsSum(chains, num);
      var saved := Detach();
      count := FreeAll(saved, chains);
      chains := EmptyBuckets<seq<Ptr>>(|mem.heads|, []);
    }
  }

  /** No bucket shows an entry; the entries left are those of the detached lists from `i` on. */
  ghost predicate Detached(m: Memory, cs: seq<seq<Ptr>>, saved: seq<Ptr>, i: nat) {
    && |m.heads| == |cs| == |saved| && Disjoint(cs)
    && (forall b :: 0 <= b < |m.heads| ==> m.heads[b] == NULL)
    && (forall b :: i <= b < |cs| ==> DetachedList(m, cs, saved, b))
    && m.nodes.Keys == Union(cs, i)
  }

  ghost predicate DetachedList(m: Memory, cs: seq<seq<Ptr>>, saved: seq<Ptr>, b: Index)
    requires b < |cs| == |saved|
  {
    IsList(SetHead(m, b, saved[b]), b, cs[b])
  }

  /** Draining one bucket to the end frees its entries and touches no other bucket. */
  lemma BucketFreed(m: Memory, d: Memory, i: nat, cs: seq<seq<Ptr>>, saved: seq<Ptr>)
    requires i < |cs| && Detached(m, cs, saved, i) && d == Drain(SetHead(m, i, saved[i]), i, cs[i], |cs[i]|)
    ensures Detached(d, cs, saved, i + 1) && |Union(cs, i)| == |cs[i]| + |Union(cs, i + 1)|
  {
    assert DetachedList(m, cs, saved, i);
    DrainedWhole(m, i, saved[i], cs[i]);
    UnionSplit(cs, i);
    forall a | i < a < |cs| ensures DetachedList(d, cs, saved, a) {
      assert DetachedList(m, cs, saved, a);
      OtherDetached(m, d, i, cs, saved[a], a);
    }
  }

  lemma DrainedWhole(m: Memory, b: Index, first: Ptr, c: seq<Ptr>)
    requires IsList(SetHead(m, b, first), b, c) && b < |m.heads| && m.heads[b] == NULL
    ensures var d := Drain(SetHead(m, b, first), b, c, |c|);
      && d.heads == m.heads && d.nodes.Keys == m.nodes.Keys - Elements(c)
      && forall p :: p in m.nodes && p !in c ==> p in d.nodes && d.nodes[p] == m.nodes[p]
  {
    DrainKeepsRest(SetHead(m, b, first), b, c, |c|);
    assert c[..|c|] == c;
  }

  lemma OtherDetached(m: Memory, d: Memory, b: Index, cs: seq<seq<Ptr>>, first: Ptr, a: Index)
    requires b < a < |m.heads| == |cs| && Disjoint(cs) && |d.heads| == |m.heads|
    requires IsList(SetHead(m, a, first), a, cs[a])
    requires forall p :: p in m.nodes && p !in cs[b] ==> p in d.nodes && d.nodes[p] == m.nodes[p]
    ensures IsList(SetHead(d, a, first), a, cs[a])
  {
    assert Elements(cs[b]) !! Elements(cs[a]);
    forall p | p in cs[a] ensures p in m.nodes && p !in cs[b] {
      var i :| 0 <= i < |cs[a]| && cs[a][i] == p;
      assert IsLink(SetHead(m, a, first), a, cs[a], i);
      assert p in Elements(cs[a]);
    }
    KeptDetached(SetHead(m, a, first), d, first, a, cs[a]);
  }

  ghost function Union(cs: seq<seq<Ptr>>, i: nat): set<Ptr> {
    set b, p | i <= b < |cs| && p in cs[b] :: p
  }

  ghost predicate Disjoint(cs: seq<seq<Ptr>>) {
    forall a, b :: 0 <= a < b < |cs| ==> Elements(cs[a]) !! Elements(cs[b])
  }

  lemma UnionSplit(cs: seq<seq<Ptr>>, b: nat)
    requires b < |cs| && Disjoint(cs)
    ensures Union(cs, b) == Union(cs, b + 1) + Elements(cs[b]) && Union(cs, b + 1) !! Elements(cs[b])
    ensures Distinct(cs[b]) ==> |Union(cs, b)| == |cs[b]| + |Union(cs, b + 1)|
  {
    if Distinct(cs[b]) {
      DistinctCount(cs[b]);
    }
  }

  lemma {:induction false} LinkedBelowIsSum(cs: seq<seq<Ptr>>, num: seq<int>, k: nat)
    requires k <= |cs| == |num| && Disjoint(cs) && forall b :: 0 <= b < |cs| ==> Distinct(cs[b]) && num[b] == |cs[b]|
    ensures |LinkedBelow(cs, k)| == SumOf(num[..k])
  {
    if k == 0 {
      assert LinkedBelow(cs, 0) == {};
    } else {
      LinkedBelowIsSum(cs, num, k - 1);
      DistinctCount(cs[k - 1]);
      forall b, p | 0 <= b < k - 1 && p in cs[b] ensures p !in cs[k - 1] {
        assert p in Elements(cs[b]);
      }
      OneMoreBucket(cs, k - 1);
      assert num[..k][..k - 1] == num[..k - 1];
    }
  }

  /** The counters of the buckets add up to the entries linked. */
  lemma LinkedIsSum(cs: seq<seq<Ptr>>, num: seq<int>)
    requires |cs| == |num| && Disjoint(cs) && forall b :: 0 <= b < |cs| ==> Distinct(cs[b]) && num[b] == |cs[b]|
    ensures |Union(cs, 0)| == SumOf(num)
  {
    LinkedBelowIsSum(cs, num, |cs|);
    assert LinkedBelow(cs, |cs|) == Union(cs, 0);
    assert num[..|num|] == num;
  }

  /** A detached list stays one when none of its entries is touched. */
  lemma KeptDetached(m: Memory, m': Memory, first: Ptr, b: Index, c: seq<Ptr>)
    requires IsList(m, b, c) && m.heads[b] == first && b < |m'.heads|
    requires forall p :: p in c ==> p in m'.nodes && p in m.nodes && m'.nodes[p] == m.nodes[p]
    ensures IsList(SetHead(m', b, first), b, c)
  {
    ListFrame(m, SetHead(m', b, first), b, c);
  }

  /** A quiet state of the concurrent model: the entries are those linked and those pending. */
  lemma QuietState(s: State)
    requires Inv(s) && s.writers == map[] && s.readers == map[]
    ensures QuietMap(s.mem, s.num, PendingEntries(s), s.chains)
  {
    forall b | 0 <= b < |s.chains|
      ensures IsList(s.mem, b, s.chains[b]) && s.num[b] == |s.chains[b]| && Elements(s.chains[b]) !! PendingEntries(s)
    {
      ChainLinked(s, b);
    }
    forall a, b | 0 <= a < b < |s.chains| ensures Elements(s.chains[a]) !! Elements(s.chains[b]) {
      OtherBucket(s, a, b, NULL);
    }
    forall p | p in s.mem.nodes ensures p in Union(s.chains, 0) + PendingEntries(s) {
      assert PhaseOk(s, p);
      LinkedPhase(s, p);
    }
    forall p | p in Union(s.chains, 0) ensures p in s.mem.nodes {
      LinkedPhase(s, p);
    }
  }
}
