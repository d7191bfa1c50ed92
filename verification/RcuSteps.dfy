/** Every step keeps the invariant. */
module RcuSteps {
  import opened HlistMemory
  import opened RcuHashMap
  import opened RcuInvariants

  // ---- frames ----

  /** What a reader relies on is kept by a step that changes neither its bucket's list nor the
      entries linked since it began, and that makes none of them reclaimable before it leaves. */
  ghost predicate ReaderFrame(s: State, s': State, rd: Reader, r: Tid)
    requires Shaped(s) && Shaped(s')
  {
    && s'.index == s.index && s'.chains[s.index(rd.key)] == s.chains[s.index(rd.key)]
    && forall p :: p in rd.linked && p in s.mem.nodes && p in s.phase ==>
         && p in s'.mem.nodes && s'.mem.nodes[p] == s.mem.nodes[p]
         && p in s'.phase && (s'.phase[p] == s.phase[p] || (s'.phase[p].Pending? && r in s'.phase[p].waiters))
  }

  lemma ReaderKept(s: State, s': State, rd: Reader, r: Tid)
    requires Shaped(s) && Shaped(s') && ReaderOk(s, rd, r) && ReaderFrame(s, s', rd, r)
    ensures ReaderOk(s', rd, r)
  {
    var c := s.chains[s.index(rd.key)];
    forall p | p in rd.linked ensures Protected(s', rd, r, p) {
      assert Protected(s, rd, r, p);
    }
    forall p | p in c ensures p in s.mem.nodes && p in s'.mem.nodes && s'.mem.nodes[p] == s.mem.nodes[p] {
      assert p in Elements(c) && Protected(s, rd, r, p);
    }
    LookupFrame(s.mem, s'.mem, c, rd.key);
    if rd.pc.AtNode? {
      assert Redirects(s.mem, s'.mem, rd.linked) by {
        forall p | p in rd.linked ensures Protected(s, rd, r, p) && Protected(s', rd, r, p) {}
      }
      CursorKept(s.mem, s'.mem, rd, rd, rd.pc.cur);
    }
  }

  lemma BucketKept(s: State, s': State, b: Index)
    requires Shaped(s) && Shaped(s') && b < |s.chains| == |s'.chains| && BucketOk(s, b)
    requires s'.index == s.index && s'.chains[b] == s.chains[b] && s'.num[b] == s.num[b]
    requires SameList(s.mem, s'.mem, b, s.chains[b])
    ensures BucketOk(s', b)
  {
    ListFrame(s.mem, s'.mem, b, s.chains[b]);
    forall i | 0 <= i < |s.chains[b]| ensures s.chains[b][i] in s.chains[b] {}
  }

  // ---- steps that leave the memory alone ----

  /** A step of one writer outside the publish: other writers are untouched. */
  ghost predicate WriterMoves(s: State, s': State, w: Tid) {
    && s'.index == s.index && s'.mem == s.mem && s'.chains == s.chains && s'.num == s.num
    && s'.phase == s.phase && s'.readers == s.readers && s'.allocs == s.allocs && s'.frees == s.frees
    && (forall v :: v in s'.writers && v != w ==> v in s.writers)
    && forall v :: v in s.writers && v != w ==> v in s'.writers && s'.writers[v] == s.writers[v]
  }

  lemma WriterMoveKept(s: State, s': State, w: Tid)
    requires Inv(s) && WriterMoves(s, s', w)
    requires w in s'.writers ==> WriterOk(s', w)
    requires forall b :: b in s'.locks ==> LockOk(s', b)
    requires forall b :: b in s.locks && s.locks[b] != w ==> b in s'.locks && s'.locks[b] == s.locks[b]
    requires w in s.writers && Unpublished(s.writers[w]) != NULL ==> w in s'.writers && Unpublished(s'.writers[w]) == Unpublished(s.writers[w])
    requires w in s.writers && Unlinked(s.writers[w]) != NULL ==> w in s'.writers && Unlinked(s'.writers[w]) == Unlinked(s.writers[w])
    ensures Inv(s')
  {
    forall b | 0 <= b < |s'.chains| ensures BucketOk(s', b) {
      assert BucketOk(s, b);
    }
    forall p | p in s'.mem.nodes ensures PhaseOk(s', p) {
      assert PhaseOk(s, p);
    }
    forall r | r in s'.readers ensures ReaderOk(s', s'.readers[r], r) {
      ReaderKept(s, s', s.readers[r], r);
    }
    forall v | v in s'.writers ensures WriterOk(s', v) {
      if v != w {
        assert v in s.writers && WriterOk(s, v);
      }
    }
  }

  lemma BeginRemoveKept(s: State, w: Tid, key: Key)
    requires Inv(s) && CanBeginRemove(s, w)
    ensures Inv(BeginRemove(s, w, key))
  {
    var s' := BeginRemove(s, w, key);
    forall b | b in s'.locks ensures LockOk(s', b) {
      assert LockOk(s, b);
    }
    WriterMoveKept(s, s', w);
  }

  lemma LockKept(s: State, w: Tid)
    requires Inv(s) && CanLock(s, w)
    ensures Inv(Lock(s, w))
  {
    var s' := Lock(s, w);
    var b := s.index(s.writers[w].key);
    assert WriterOk(s, w) && BucketOk(s, b);
    forall a | a in s'.locks ensures LockOk(s', a) {
      assert a != b ==> LockOk(s, a);
    }
    WriterMoveKept(s, s', w);
  }

  lemma AdvanceKept(s: State, w: Tid)
    requires Inv(s) && CanAdvance(s, w)
    ensures Inv(Advance(s, w))
  {
    var s' := Advance(s, w);
    var wr := s.writers[w];
    var b := s.index(wr.key);
    assert WriterOk(s, w) && BucketOk(s, b);
    assert IsLink(s.mem, b, s.chains[b], wr.pos);
    forall a | a in s'.locks ensures LockOk(s', a) {
      assert LockOk(s, a);
    }
    WriterMoveKept(s, s', w);
  }

  lemma UnlockKept(s: State, w: Tid)
    requires Inv(s) && CanUnlock(s, w)
    ensures Inv(Unlock(s, w))
  {
    var s' := Unlock(s, w);
    assert WriterOk(s, w);
    forall a | a in s'.locks ensures LockOk(s', a) {
      assert LockOk(s, a);
    }
    WriterMoveKept(s, s', w);
  }

  /** A step of one reader: everything else is untouched. */
  ghost predicate ReaderMoves(s: State, s': State, r: Tid) {
    && s'.index == s.index && s'.mem == s.mem && s'.chains == s.chains && s'.num == s.num && s'.locks == s.locks
    && s'.phase == s.phase && s'.writers == s.writers && s'.allocs == s.allocs && s'.frees == s.frees
    && (forall t :: t in s'.readers && t != r ==> t in s.readers && s'.readers[t] == s.readers[t])
  }

  lemma ReaderMoveKept(s: State, s': State, r: Tid)
    requires Inv(s) && ReaderMoves(s, s', r)
    requires r in s'.readers && ReaderOk(s', s'.readers[r], r)
    ensures Inv(s')
  {
    forall b | 0 <= b < |s'.chains| ensures BucketOk(s', b) {
      assert BucketOk(s, b);
    }
    forall p | p in s'.mem.nodes ensures PhaseOk(s', p) {
      assert PhaseOk(s, p);
    }
    forall w | w in s'.writers ensures WriterOk(s', w) {
      assert WriterOk(s, w);
    }
    forall b | b in s'.locks ensures LockOk(s', b) {
      assert LockOk(s, b);
    }
    forall t | t in s'.readers ensures ReaderOk(s', s'.readers[t], t) {
      if t != r {
        ReaderKept(s, s', s.readers[t], t);
      }
    }
  }

  /** The entries of a well-formed list are all protected for a reader that has them in `linked`. */
  lemma ListProtected(s: State, b: Index, c: seq<Ptr>, rd: Reader, r: Tid)
    requires Shaped(s) && IsList(s.mem, b, c) && KeysOk(s.mem, s.index, b, c)
    requires s.index(rd.key) == b && Lookup(s.mem, c, rd.key) in rd.seen && Elements(c) <= rd.linked
    requires forall p :: p in c ==> p in s.phase && s.phase[p].Linked?
    ensures forall p :: p in c ==> Protected(s, rd, r, p)
  {
    forall p | p in c ensures Protected(s, rd, r, p) {
      var i :| 0 <= i < |c| && c[i] == p;
      assert IsLink(s.mem, b, c, i);
      LookupFound(s.mem, c, i);
      assert i + 1 < |c| ==> c[i + 1] in c;
    }
  }

  lemma EnterKept(s: State, r: Tid, key: Key)
    requires Inv(s) && CanEnter(s, r)
    ensures Inv(Enter(s, r, key))
  {
    var s' := Enter(s, r, key);
    var b := s.index(key);
    ChainLinked(s, b);
    ListProtected(s', b, s.chains[b], s'.readers[r], r);
    ReaderMoveKept(s, s', r);
  }

  /** A reader that moves keeps what it has noted; only its cursor or its result changes. */
  lemma CursorMoveKept(s: State, s': State, r: Tid)
    requires Inv(s) && ReaderMoves(s, s', r) && r in s.readers && r in s'.readers
    requires var rd, rd' := s.readers[r], s'.readers[r];
      && rd'.key == rd.key && rd'.seen == rd.seen && rd'.linked == rd.linked
      && (rd'.pc.AtNode? ==> CursorOk(s.mem, rd', rd'.pc.cur))
      && (rd'.pc.Done? ==> rd'.pc.result in rd.seen)
    ensures Inv(s')
  {
    var rd, rd' := s.readers[r], s'.readers[r];
    assert ReaderOk(s, rd, r);
    forall p | p in rd'.linked ensures Protected(s', rd', r, p) {
      assert Protected(s, rd, r, p);
    }
    ReaderMoveKept(s, s', r);
  }

  lemma ReadHeadKept(s: State, r: Tid)
    requires Inv(s) && CanReadHead(s, r)
    ensures Inv(ReadHead(s, r))
  {
    var rd := s.readers[r];
    var b := s.index(rd.key);
    var c := s.chains[b];
    assert BucketOk(s, b) && ReaderOk(s, rd, r);
    assert c != [] ==> c[0] in Elements(c);
    ListReaches(s.mem, b, c, 0);
    if None !in rd.seen {
      var i := LookupPlace(s.mem, c, rd.key);
    }
    CursorMoveKept(s, ReadHead(s, r), r);
  }

  lemma ReadNextKept(s: State, r: Tid)
    requires Inv(s) && CanReadNext(s, r)
    ensures Inv(ReadNext(s, r))
  {
    var rd := s.readers[r];
    assert ReaderOk(s, rd, r) && Protected(s, rd, r, rd.pc.cur);
    CursorMoveKept(s, ReadNext(s, r), r);
  }

  lemma ReturnKept(s: State, r: Tid)
    requires Inv(s) && CanReturn(s, r)
    ensures Inv(Return(s, r))
  {
    var rd := s.readers[r];
    assert ReaderOk(s, rd, r);
    assert rd.pc.cur != NULL ==> Protected(s, rd, r, rd.pc.cur);
    CursorMoveKept(s, Return(s, r), r);
  }

  // ---- allocation, retirement and reclamation ----

  /** Lists, locks and readers are kept by a step that changes no linked entry. */
  ghost predicate ListsUntouched(s: State, s': State)
    requires Shaped(s)
  {
    && Shaped(s') && s'.index == s.index && s'.chains == s.chains && s'.num == s.num && s'.mem.heads == s.mem.heads
    && s'.locks == s.locks
    && forall p :: p in s.mem.nodes && p in s.phase && s.phase[p].Linked? ==> p in s'.mem.nodes && s'.mem.nodes[p] == s.mem.nodes[p]
  }

  lemma BucketsKept(s: State, s': State)
    requires Inv(s) && ListsUntouched(s, s')
    ensures forall b :: 0 <= b < |s'.chains| ==> BucketOk(s', b)
  {
    forall b | 0 <= b < |s'.chains| ensures BucketOk(s', b) {
      ChainLinked(s, b);
      BucketKept(s, s', b);
    }
  }

  lemma ChainLinked(s: State, b: Index)
    requires Inv(s) && b < |s.chains|
    ensures BucketOk(s, b)
    ensures forall p :: p in s.chains[b] ==> p in s.mem.nodes && p in s.phase && s.phase[p].Linked? && s.index(s.mem.nodes[p].key) == b
  {
    assert BucketOk(s, b);
    forall p | p in s.chains[b] ensures p in s.mem.nodes && p in s.phase && s.phase[p].Linked? && s.index(s.mem.nodes[p].key) == b {
      var i :| 0 <= i < |s.chains[b]| && s.chains[b][i] == p;
      assert IsLink(s.mem, b, s.chains[b], i) && PhaseOk(s, p);
    }
  }

  lemma LocksKept(s: State, s': State)
    requires Inv(s) && s'.locks == s.locks && s'.index == s.index
    requires forall w :: w in s.writers && (s.writers[w].Scanning? || s.writers[w].Published?) ==> w in s'.writers && s'.writers[w] == s.writers[w]
    ensures forall b :: b in s'.locks ==> LockOk(s', b)
  {
    forall b | b in s'.locks ensures LockOk(s', b) {
      assert LockOk(s, b);
    }
  }

  lemma ReadersKept(s: State, s': State)
    requires Inv(s) && Shaped(s')
    requires forall r :: r in s'.readers ==> r in s.readers && s'.readers[r] == s.readers[r] && ReaderFrame(s, s', s.readers[r], r)
    ensures forall r :: r in s'.readers ==> ReaderOk(s', s'.readers[r], r)
  {
    forall r | r in s'.readers ensures ReaderOk(s', s'.readers[r], r) {
      ReaderKept(s, s', s.readers[r], r);
    }
  }

  lemma BeginInsertPhases(s: State, w: Tid, key: Key, value: Value, p: Ptr)
    requires Inv(s) && CanBeginInsert(s, w, p)
    ensures PhasesOk(BeginInsert(s, w, key, value, p))
  {
    var s' := BeginInsert(s, w, key, value, p);
    ChainLinked(s, s.index(key));
    forall q | q in s'.mem.nodes ensures PhaseOk(s', q) {
      assert q != p ==> PhaseOk(s, q);
    }
  }

  lemma BeginInsertWriters(s: State, w: Tid, key: Key, value: Value, p: Ptr)
    requires Inv(s) && CanBeginInsert(s, w, p)
    ensures var s' := BeginInsert(s, w, key, value, p); forall v :: v in s'.writers ==> WriterOk(s', v)
  {
    var s' := BeginInsert(s, w, key, value, p);
    forall v | v in s'.writers ensures WriterOk(s', v) {
      assert v != w ==> WriterOk(s, v);
    }
  }

  lemma FreshEntryFrame(s: State, s': State, p: Ptr, n: Node, ph: Phase, rd: Reader, r: Tid)
    requires Shaped(s) && Shaped(s') && s'.index == s.index && s'.chains == s.chains
    requires p !in s.mem.nodes && s'.mem.nodes == s.mem.nodes[p := n] && s'.phase == s.phase[p := ph]
    ensures ReaderFrame(s, s', rd, r)
  {
  }

  lemma BeginInsertReaders(s: State, w: Tid, key: Key, value: Value, p: Ptr)
    requires Inv(s) && CanBeginInsert(s, w, p)
    ensures var s' := BeginInsert(s, w, key, value, p); forall t :: t in s'.readers ==> ReaderOk(s', s'.readers[t], t)
  {
    var s' := BeginInsert(s, w, key, value, p);
    forall t | t in s'.readers ensures ReaderOk(s', s'.readers[t], t) {
      FreshEntryFrame(s, s', p, s'.mem.nodes[p], Private(w), s.readers[t], t);
      ReaderKept(s, s', s.readers[t], t);
    }
  }

  lemma BeginInsertLists(s: State, w: Tid, key: Key, value: Value, p: Ptr)
    requires Inv(s) && CanBeginInsert(s, w, p)
    ensures var s' := BeginInsert(s, w, key, value, p);
      && (forall b :: 0 <= b < |s'.chains| ==> BucketOk(s', b))
      && (forall b :: b in s'.locks ==> LockOk(s', b))
  {
    var s' := BeginInsert(s, w, key, value, p);
    BucketsKept(s, s');
    LocksKept(s, s');
  }

  lemma BeginInsertKept(s: State, w: Tid, key: Key, value: Value, p: Ptr)
    requires Inv(s) && CanBeginInsert(s, w, p)
    ensures Inv(BeginInsert(s, w, key, value, p))
  {
    var s' := BeginInsert(s, w, key, value, p);
    BeginInsertPhases(s, w, key, value, p);
    BeginInsertWriters(s, w, key, value, p);
    BeginInsertLists(s, w, key, value, p);
    BeginInsertReaders(s, w, key, value, p);
    assert s'.mem.nodes.Keys == s.mem.nodes.Keys + {p};
  }

  lemma CallRcuOwners(s: State, w: Tid)
    requires Inv(s) && CanCallRcu(s, w)
    ensures var s' := CallRcu(s, w); PhasesOk(s') && forall v :: v in s'.writers ==> WriterOk(s', v)
  {
    var s' := CallRcu(s, w);
    assert WriterOk(s, w);
    forall q | q in s'.mem.nodes ensures PhaseOk(s', q) {
      assert PhaseOk(s, q);
    }
    forall v | v in s'.writers ensures WriterOk(s', v) {
      assert WriterOk(s, v);
    }
  }

  lemma CallRcuLists(s: State, w: Tid)
    requires Inv(s) && CanCallRcu(s, w)
    ensures var s' := CallRcu(s, w);
      && (forall b :: 0 <= b < |s'.chains| ==> BucketOk(s', b))
      && (forall b :: b in s'.locks ==> LockOk(s', b))
  {
    BucketsKept(s, CallRcu(s, w));
    LocksKept(s, CallRcu(s, w));
  }

  lemma CallRcuReaders(s: State, w: Tid)
    requires Inv(s) && CanCallRcu(s, w)
    ensures var s' := CallRcu(s, w); forall t :: t in s'.readers ==> ReaderOk(s', s'.readers[t], t)
  {
    assert WriterOk(s, w);
    ReadersKept(s, CallRcu(s, w));
  }

  lemma CallRcuKept(s: State, w: Tid)
    requires Inv(s) && CanCallRcu(s, w)
    ensures Inv(CallRcu(s, w))
  {
    CallRcuOwners(s, w);
    CallRcuLists(s, w);
    CallRcuReaders(s, w);
  }

  /** Ownership is kept when only entries that wait for readers change hands or go. */
  ghost predicate OnlyPendingChanges(s: State, s': State)
    requires Shaped(s)
  {
    && Shaped(s') && s'.index == s.index && s'.chains == s.chains && s'.writers == s.writers && s'.locks == s.locks
    && s'.phase.Keys == s'.mem.nodes.Keys
    && (forall p :: p in s'.mem.nodes ==> p in s.mem.nodes && p in s.phase && s'.mem.nodes[p] == s.mem.nodes[p])
    && (forall p :: p in s'.phase && p in s.phase ==> s'.phase[p] == s.phase[p] || (s.phase[p].Pending? && s'.phase[p].Pending?))
    && (forall p :: p in s.phase && !s.phase[p].Pending? ==> p in s'.phase)
  }

  lemma OwnersKept(s: State, s': State)
    requires Inv(s) && OnlyPendingChanges(s, s')
    ensures PhasesOk(s') && forall v :: v in s'.writers ==> WriterOk(s', v)
  {
    forall q | q in s'.mem.nodes ensures PhaseOk(s', q) {
      assert PhaseOk(s, q);
    }
    forall v | v in s'.writers ensures WriterOk(s', v) {
      assert WriterOk(s, v);
      if s.writers[v].Scanning? {
        ChainLinked(s, s.index(s.writers[v].key));
      }
    }
  }

  lemma ExitReaders(s: State, r: Tid)
    requires Inv(s) && CanExit(s, r)
    ensures var s' := Exit(s, r); forall t :: t in s'.readers ==> ReaderOk(s', s'.readers[t], t)
  {
    var s' := Exit(s, r);
    ReadersKept(s, s');
  }

  lemma ExitKept(s: State, r: Tid)
    requires Inv(s) && CanExit(s, r)
    ensures Inv(Exit(s, r))
  {
    var s' := Exit(s, r);
    OwnersKept(s, s');
    BucketsKept(s, s');
    LocksKept(s, s');
    ExitReaders(s, r);
  }

  /** No reader has a reclaimable entry among those it can still reach. */
  lemma ReclaimableUnreachable(s: State, p: Ptr)
    requires Inv(s) && CanReclaim(s, p)
    ensures forall r :: r in s.readers ==> p !in s.readers[r].linked
    ensures forall b :: 0 <= b < |s.chains| ==> p !in s.chains[b]
    ensures forall w :: w in s.writers ==> p != Unpublished(s.writers[w]) && p != Unlinked(s.writers[w])
  {
    forall r | r in s.readers ensures p !in s.readers[r].linked {
      assert ReaderOk(s, s.readers[r], r);
      assert p in s.readers[r].linked ==> Protected(s, s.readers[r], r, p);
    }
    forall b | 0 <= b < |s.chains| ensures p !in s.chains[b] {
      ChainLinked(s, b);
    }
    forall w | w in s.writers ensures p != Unpublished(s.writers[w]) && p != Unlinked(s.writers[w]) {
      assert WriterOk(s, w);
    }
  }

  lemma ReclaimReaders(s: State, p: Ptr)
    requires Inv(s) && CanReclaim(s, p)
    ensures var s' := Reclaim(s, p); forall t :: t in s'.readers ==> ReaderOk(s', s'.readers[t], t)
  {
    ReclaimableUnreachable(s, p);
    ReadersKept(s, Reclaim(s, p));
  }

  lemma ReclaimLists(s: State, p: Ptr)
    requires Inv(s) && CanReclaim(s, p)
    ensures var s' := Reclaim(s, p);
      && (forall b :: 0 <= b < |s'.chains| ==> BucketOk(s', b))
      && (forall b :: b in s'.locks ==> LockOk(s', b))
  {
    BucketsKept(s, Reclaim(s, p));
    LocksKept(s, Reclaim(s, p));
  }

  lemma CountRemoved(nodes: map<Ptr, Node>, p: Ptr)
    requires p in nodes
    ensures |nodes - {p}| == |nodes| - 1
  {
    assert nodes.Keys == (nodes - {p}).Keys + {p};
  }

  lemma ReclaimKept(s: State, p: Ptr)
    requires Inv(s) && CanReclaim(s, p)
    ensures Inv(Reclaim(s, p))
  {
    OwnersKept(s, Reclaim(s, p));
    ReclaimLists(s, p);
    ReclaimReaders(s, p);
    CountRemoved(s.mem.nodes, p);
  }
}
