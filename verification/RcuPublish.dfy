/** The publish step keeps the invariant, and it is the update of a sequential map. */
module RcuPublish {
  import opened HlistMemory
  import opened RcuHashMap
  import opened RcuInvariants
  import opened RcuSteps

  /** What the publishes have in common: `n` enters the list and `d` leaves it, either of them
      NULL for none.  Of the entries that were there, only a pointer at `d` is redirected: past
      it, or to a replacement that leads to the same place. */
  ghost predicate ListUpdate(m: Memory, m': Memory, b: Index, c: seq<Ptr>, c': seq<Ptr>, n: Ptr, d: Ptr) {
    && IsList(m', b, c')
    && OnlyTouches(m, m', b, Elements(c) + {n})
    && (forall p :: p in m.nodes ==> m'.nodes[p].key == m.nodes[p].key && m'.nodes[p].value == m.nodes[p].value)
    && (forall p :: p in m.nodes && p != n ==> m'.nodes[p].next == m.nodes[p].next || Redirected(m, m', n, d, p))
    && (forall p :: p in c' <==> (p in c && p != d) || (p == n && n != NULL))
  }

  ghost predicate Redirected(m: Memory, m': Memory, n: Ptr, d: Ptr, p: Ptr)
    requires p in m.nodes && p in m'.nodes
  {
    && d != NULL && d in m.nodes && m.nodes[p].next == d
    && m'.nodes[p].next == (if n == NULL then m.nodes[d].next else n)
    && (n != NULL ==> n in m'.nodes && m'.nodes[n].next == m.nodes[d].next)
  }

  // ---- the three stores ----

  lemma AddUpdates(m: Memory, b: Index, c: seq<Ptr>, n: Ptr)
    requires IsList(m, b, c) && n in m.nodes && n != NULL && n !in c
    ensures ListUpdate(m, AddHeadRcu(m, n, b), b, c, [n] + c, n, NULL)
  {
    AddHeadList(m, b, c, n);
    forall i | 0 <= i < |c| ensures c[i] != NULL {
      assert IsLink(m, b, c, i);
    }
  }

  lemma ReplaceUpdates(m: Memory, b: Index, c: seq<Ptr>, k: nat, n: Ptr)
    requires IsList(m, b, c) && k < |c| && n in m.nodes && n != NULL && n !in c
    ensures c[k] in m.nodes
    ensures ListUpdate(m, ReplaceRcu(m, c[k], n), b, c, c[k := n], n, c[k])
  {
    ReplaceRelinks(m, b, c, k, n);
    RelinkUpdates(m, ReplaceRcu(m, c[k], n), b, c, k, n, NextSlot(n), n);
    ReplacedList(m, b, c, k, n, ReplaceRcu(m, c[k], n));
    var c' := c[k := n];
    forall p | p in c && p != c[k] ensures p in c' {
      var i :| 0 <= i < |c| && c[i] == p;
      assert c'[i] == p;
    }
    assert c'[k] == n;
  }

  lemma DelUpdates(m: Memory, b: Index, c: seq<Ptr>, k: nat)
    requires IsList(m, b, c) && k < |c|
    ensures c[k] in m.nodes
    ensures ListUpdate(m, DelRcu(m, c[k]), b, c, c[..k] + c[k + 1..], NULL, c[k])
  {
    DelRelinks(m, b, c, k);
    RelinkUpdates(m, DelRcu(m, c[k]), b, c, k, At(c, k + 1), SlotAt(b, c, k), NULL);
    DeletedList(m, b, c, k, DelRcu(m, c[k]));
    var c' := c[..k] + c[k + 1..];
    forall p | p in c && p != c[k] ensures p in c' {
      var i :| 0 <= i < |c| && c[i] == p;
      assert c'[if i < k then i else i - 1] == p;
    }
  }

  /** A relinking changes keys and values nowhere, and `next` only in the predecessor. */
  lemma RelinkUpdates(m: Memory, m': Memory, b: Index, c: seq<Ptr>, k: nat, target: Ptr, back: Slot, n: Ptr)
    requires IsList(m, b, c) && k < |c|
    requires Relinked(m, m', b, c, k, target, back, if n == NULL then {} else {n})
    requires n == NULL ==> target == At(c, k + 1)
    requires n != NULL ==> target == n && n in m'.nodes && n in m.nodes && m'.nodes[n].next == At(c, k + 1)
    requires n != NULL ==> m'.nodes[n].key == m.nodes[n].key && m'.nodes[n].value == m.nodes[n].value
    ensures forall p :: p in m.nodes ==> m'.nodes[p].key == m.nodes[p].key && m'.nodes[p].value == m.nodes[p].value
    ensures forall p :: p in m.nodes && p != n ==> m'.nodes[p].next == m.nodes[p].next || Redirected(m, m', n, c[k], p)
  {
    assert IsLink(m, b, c, k) && (k > 0 ==> IsLink(m, b, c, k - 1));
    forall p | p in m.nodes && p != n ensures m'.nodes[p] == Relink(m, c, k, target, back, p) {}
  }

  /** The keys stay distinct and in their bucket. */
  lemma UpdateKeys(m: Memory, m': Memory, index: Key -> Index, b: Index, c: seq<Ptr>, c': seq<Ptr>, n: Ptr, d: Ptr)
    requires ListUpdate(m, m', b, c, c', n, d) && KeysOk(m, index, b, c)
    requires n != NULL ==> n in m.nodes && index(m.nodes[n].key) == b
    requires n != NULL ==> forall p :: p in c && p != d ==> p in m.nodes && m.nodes[p].key != m.nodes[n].key
    ensures KeysOk(m', index, b, c')
  {
    forall i | 0 <= i < |c'| ensures c'[i] in m.nodes && index(m.nodes[c'[i]].key) == b {
      assert c'[i] in c';
    }
    forall i, j | 0 <= i < j < |c'| ensures m.nodes[c'[i]].key != m.nodes[c'[j]].key {
      var p, q := c'[i], c'[j];
      assert p in c' && q in c' && p != q;
      if p in c && q in c {
        var k :| 0 <= k < |c| && c[k] == p;
        var l :| 0 <= l < |c| && c[l] == q;
      }
    }
  }

  // ---- every publish is such an update ----

  lemma ScanFacts(s: State, w: Tid)
    requires Inv(s) && CanPublish(s, w)
    ensures var wr := s.writers[w]; var b := s.index(wr.key); var c := s.chains[b];
      && WriterOk(s, w) && BucketOk(s, b) && wr.pos <= |c|
      && (forall p :: p in c ==> p in s.mem.nodes && p in s.phase && s.phase[p].Linked?)
      && (forall p :: p in c && p != wr.cur ==> s.mem.nodes[p].key != wr.key)
      && (wr.cur != NULL ==> wr.pos < |c| && wr.cur == c[wr.pos] && s.mem.nodes[wr.cur].key == wr.key)
      && (wr.op.Insert? ==> wr.op.node != NULL && wr.op.node !in c)
  {
    var wr := s.writers[w];
    ChainLinked(s, s.index(wr.key));
    assert WriterOk(s, w);
    var c := s.chains[s.index(wr.key)];
    if wr.pos < |c| {
      assert IsLink(s.mem, s.index(wr.key), c, wr.pos);
    }
    forall p | p in c && p != wr.cur ensures s.mem.nodes[p].key != wr.key {
      var i :| 0 <= i < |c| && c[i] == p;
      assert i > wr.pos ==> s.mem.nodes[c[wr.pos]].key != s.mem.nodes[c[i]].key;
    }
  }

  /** `s'` is what a publish that turns the list into `c'` makes of `s`. */
  ghost predicate Publishes(s: State, w: Tid, s': State, m: Memory, c': seq<Ptr>)
    requires Shaped(s) && CanPublish(s, w)
  {
    var wr := s.writers[w];
    var b := s.index(wr.key);
    && ListUpdate(s.mem, m, b, s.chains[b], c', Unpublished(wr), wr.cur)
    && KeysOk(m, s.index, b, c') && |c'| == |s.chains[b]| + PublishedCount(wr.op, wr.cur)
    && s' == Rewrite(s, w, m, c')
  }

  lemma PublishShape(s: State, w: Tid) returns (m: Memory, c': seq<Ptr>)
    requires Inv(s) && CanPublish(s, w)
    ensures Publishes(s, w, Publish(s, w), m, c')
  {
    var wr := s.writers[w];
    var b := s.index(wr.key);
    var c := s.chains[b];
    ScanFacts(s, w);
    m, c' := PublishedMemory(s.mem, b, wr.op, wr.cur), PublishedChain(c, wr.op, wr.cur, wr.pos);
    match wr.op {
      case Insert(n) =>
        if wr.cur == NULL {
          AddUpdates(s.mem, b, c, n);
        } else {
          ReplaceUpdates(s.mem, b, c, wr.pos, n);
        }
      case Remove =>
        if wr.cur != NULL {
          DelUpdates(s.mem, b, c, wr.pos);
        } else {
          assert forall p :: p in c ==> p != NULL;
        }
    }
    UpdateKeys(s.mem, m, s.index, b, c, c', Unpublished(wr), wr.cur);
  }

  // ---- what is kept ----

  /** Lists of different buckets share no entry. */
  lemma OtherBucket(s: State, a: Index, b: Index, n: Ptr)
    requires Inv(s) && a < |s.chains| && b < |s.chains| && a != b
    requires n != NULL ==> n in s.phase && !s.phase[n].Linked?
    ensures forall p :: p in s.chains[a] ==> p !in Elements(s.chains[b]) + {n}
  {
    ChainLinked(s, a);
    ChainLinked(s, b);
  }

  lemma PublishBuckets(s: State, w: Tid, s': State, m: Memory, c': seq<Ptr>)
    requires Inv(s) && CanPublish(s, w) && Publishes(s, w, s', m, c')
    ensures forall b :: 0 <= b < |s'.chains| ==> BucketOk(s', b)
  {
    ScanFacts(s, w);
    forall a | 0 <= a < |s'.chains| ensures BucketOk(s', a) {
      ChainLinked(s, a);
      if a != s.index(s.writers[w].key) {
        OtherBucket(s, a, s.index(s.writers[w].key), Unpublished(s.writers[w]));
        BucketKept(s, s', a);
      }
    }
  }

  /** The publish as the rest of the state sees it: bucket `b` goes from its list to `c'`, entry
      `n` becomes linked and entry `d` becomes the writer's to retire. */
  ghost predicate Handover(s: State, s': State, w: Tid, b: Index, c': seq<Ptr>, n: Ptr, d: Ptr) {
    && Shaped(s) && Shaped(s') && s'.index == s.index && b < |s.chains| && s'.chains == s.chains[b := c']
    && ListUpdate(s.mem, s'.mem, b, s.chains[b], c', n, d)
    && s'.phase.Keys == s.phase.Keys
    && (forall p :: p in s.phase ==> s'.phase[p] == NewOwner(s, w, n, d, p))
    && (n != NULL ==> n in s.mem.nodes && n in s.phase && s.phase[n].Private?)
    && (d != NULL ==> d in s.chains[b])
    && (forall p :: p in s.chains[b] ==> p in s.mem.nodes && p in s.phase && s.phase[p].Linked? && s.index(s.mem.nodes[p].key) == b)
  }

  ghost function NewOwner(s: State, w: Tid, n: Ptr, d: Ptr, p: Ptr): Phase
    requires p in s.phase
  {
    if d != NULL && p == d then Retired(w) else if n != NULL && p == n then Linked else s.phase[p]
  }

  lemma PublishedOwners(s: State, w: Tid, p: Ptr)
    requires Inv(s) && CanPublish(s, w)
    ensures var wr := s.writers[w]; var ph := PublishedPhase(s.phase, w, wr.op, wr.cur);
      ph.Keys == s.phase.Keys && (p in s.phase ==> ph[p] == NewOwner(s, w, Unpublished(wr), wr.cur, p))
  {
    ScanFacts(s, w);
  }

  lemma PublishHandover(s: State, w: Tid, s': State, m: Memory, c': seq<Ptr>)
    requires Inv(s) && CanPublish(s, w) && Publishes(s, w, s', m, c')
    ensures var wr := s.writers[w]; Handover(s, s', w, s.index(wr.key), c', Unpublished(wr), wr.cur)
  {
    ScanFacts(s, w);
    forall p ensures s'.phase.Keys == s.phase.Keys && (p in s.phase ==> s'.phase[p] == NewOwner(s, w, Unpublished(s.writers[w]), s.writers[w].cur, p)) {
      PublishedOwners(s, w, p);
    }
    ChainLinked(s, s.index(s.writers[w].key));
  }

  lemma PublishOwner(s: State, w: Tid, s': State, b: Index, c': seq<Ptr>, n: Ptr, d: Ptr, q: Ptr)
    requires Handover(s, s', w, b, c', n, d)
    requires q in s.mem.nodes && q in s.phase && PhaseOk(s, q) && q != NULL && (q == n ==> s.index(s.mem.nodes[q].key) == b)
    requires w in s.writers && Unpublished(s.writers[w]) == n && Unlinked(s.writers[w]) == NULL
    requires w in s'.writers && Unlinked(s'.writers[w]) == d
    requires forall v :: v in s.writers && v != w ==> v in s'.writers && s'.writers[v] == s.writers[v]
    ensures q in s'.mem.nodes && q in s'.phase && PhaseOk(s', q)
  {
    var a := s.index(s.mem.nodes[q].key);
    assert a != b ==> s'.chains[a] == s.chains[a] && q !in s.chains[b];
    assert q in c' <==> (q in s.chains[b] && q != d) || (q == n && n != NULL);
  }

  lemma PublishOwners(s: State, w: Tid, s': State, m: Memory, c': seq<Ptr>)
    requires Inv(s) && CanPublish(s, w) && Publishes(s, w, s', m, c')
    ensures PhasesOk(s')
  {
    var wr := s.writers[w];
    PublishHandover(s, w, s', m, c');
    assert WriterOk(s, w);
    forall q | q in s'.mem.nodes ensures q in s'.phase && PhaseOk(s', q) {
      assert PhaseOk(s, q);
      PublishOwner(s, w, s', s.index(wr.key), c', Unpublished(wr), wr.cur, q);
    }
  }

  lemma PublishLocks(s: State, w: Tid, s': State, m: Memory, c': seq<Ptr>)
    requires Inv(s) && CanPublish(s, w) && Publishes(s, w, s', m, c')
    ensures forall b :: b in s'.locks ==> LockOk(s', b)
  {
    forall b | b in s'.locks ensures LockOk(s', b) {
      assert LockOk(s, b);
    }
  }

  lemma PublishWriters(s: State, w: Tid, s': State, m: Memory, c': seq<Ptr>)
    requires Inv(s) && CanPublish(s, w) && Publishes(s, w, s', m, c')
    ensures forall v :: v in s'.writers ==> WriterOk(s', v)
  {
    ScanFacts(s, w);
    var b := s.index(s.writers[w].key);
    forall v | v in s'.writers ensures WriterOk(s', v) {
      assert WriterOk(s, v);
      if v != w && s.writers[v].Scanning? {
        assert s.index(s.writers[v].key) != b;
      }
    }
  }

  // ---- readers across a publish ----

  /** The entries a reader holds: allocated, not the one being published, closed under `next`. */
  ghost predicate HeldBy(m: Memory, l: set<Ptr>, n: Ptr) {
    forall q :: q in l ==> q in m.nodes && q != n && (m.nodes[q].next == NULL || m.nodes[q].next in l)
  }

  lemma ReaderHolds(s: State, rd: Reader, r: Tid, n: Ptr)
    requires Shaped(s) && ReaderOk(s, rd, r) && NULL !in s.mem.nodes
    requires n != NULL ==> n in s.phase && s.phase[n].Private?
    ensures HeldBy(s.mem, rd.linked, n)
  {
    forall p | p in rd.linked ensures Protected(s, rd, r, p) {}
  }

  lemma UpdateRedirects(m: Memory, m': Memory, b: Index, c: seq<Ptr>, c': seq<Ptr>, n: Ptr, d: Ptr, l: set<Ptr>, key: Key)
    requires ListUpdate(m, m', b, c, c', n, d) && HeldBy(m, l, n)
    requires n != NULL && d != NULL ==> n in m.nodes && d in m.nodes && m.nodes[n].key == m.nodes[d].key
    ensures Redirects(m, m', l)
    ensures (n == NULL && d != NULL ==> d in m.nodes && m.nodes[d].key != key) ==> KeepsKey(m, m', l, key)
  {
    forall p | p in l ensures
      && m'.nodes[p].key == m.nodes[p].key && m'.nodes[p].value == m.nodes[p].value
      && (m'.nodes[p].next == m.nodes[p].next || (if n == NULL then Skips(m, m', p) && m.nodes[p].next == d else Swaps(m, m', p)))
    {
      assert m'.nodes[p].next == m.nodes[p].next || Redirected(m, m', n, d, p);
    }
  }

  /** A reader of another bucket sees nothing. */
  lemma ReaderElsewhere(s: State, s': State, w: Tid, b: Index, c': seq<Ptr>, n: Ptr, d: Ptr, rd: Reader, r: Tid)
    requires Handover(s, s', w, b, c', n, d) && NULL !in s.mem.nodes
    requires ReaderOk(s, rd, r) && s.index(rd.key) != b
    ensures ReaderOk(s', rd, r)
  {
    ReaderHolds(s, rd, r, n);
    forall p | p in rd.linked ensures p !in s.chains[b] && s'.mem.nodes[p] == s.mem.nodes[p] && s'.phase[p] == s.phase[p] {
      assert Protected(s, rd, r, p);
    }
    ReaderKept(s, s', rd, r);
  }

  /** A reader of the bucket: an entry held before is still protected afterwards. */
  lemma StillProtected(s: State, s': State, w: Tid, b: Index, c': seq<Ptr>, n: Ptr, d: Ptr, rd: Reader, rd': Reader, r: Tid, p: Ptr)
    requires Handover(s, s', w, b, c', n, d) && HeldBy(s.mem, rd.linked, n) && p in rd.linked && Protected(s, rd, r, p)
    requires d != NULL ==> d in rd.linked
    requires rd'.key == rd.key && rd.linked + Elements(c') <= rd'.linked && rd.seen <= rd'.seen
    ensures Protected(s', rd', r, p)
  {
    var m, m' := s.mem, s'.mem;
    assert n != NULL ==> n in c' && n in Elements(c');
    assert m'.nodes[p].next == m.nodes[p].next || Redirected(m, m', n, d, p);
    assert m'.nodes[p].next == NULL || m'.nodes[p].next in rd'.linked;
  }

  lemma ReaderObserves(s: State, s': State, w: Tid, b: Index, c': seq<Ptr>, n: Ptr, d: Ptr, rd: Reader, rd': Reader, r: Tid)
    requires Handover(s, s', w, b, c', n, d) && NULL !in s.mem.nodes && KeysOk(s'.mem, s.index, b, c')
    requires ReaderOk(s, rd, r) && s.index(rd.key) == b && rd' == Observe(s.index, rd, b, s'.mem, c')
    requires n != NULL && d != NULL ==> d in s.mem.nodes && s.mem.nodes[n].key == s.mem.nodes[d].key
    requires n == NULL && d != NULL ==> d in s.mem.nodes && forall p :: p in c' ==> p in s'.mem.nodes && s'.mem.nodes[p].key != s.mem.nodes[d].key
    ensures ReaderOk(s', rd', r)
  {
    ReaderHolds(s, rd, r, n);
    assert d != NULL ==> d in Elements(s.chains[b]);
    ListProtected(s', b, c', rd', r);
    forall p | p in rd'.linked ensures Protected(s', rd', r, p) {
      if p in rd.linked {
        StillProtected(s, s', w, b, c', n, d, rd, rd', r, p);
      } else {
        assert p in c';
      }
    }
    if rd.pc.AtNode? {
      UpdateRedirects(s.mem, s'.mem, b, s.chains[b], c', n, d, rd.linked, rd.key);
      if n == NULL && d != NULL && s.mem.nodes[d].key == rd.key {
        LookupMissing(s'.mem, c', rd.key);
      }
      CursorKept(s.mem, s'.mem, rd, rd', rd.pc.cur);
    }
  }

  lemma PublishReaders(s: State, w: Tid, s': State, m: Memory, c': seq<Ptr>)
    requires Inv(s) && CanPublish(s, w) && Publishes(s, w, s', m, c')
    ensures forall r :: r in s'.readers ==> ReaderOk(s', s'.readers[r], r)
  {
    var wr := s.writers[w];
    var b := s.index(wr.key);
    PublishHandover(s, w, s', m, c');
    ScanFacts(s, w);
    forall r | r in s'.readers ensures ReaderOk(s', s'.readers[r], r) {
      assert ReaderOk(s, s.readers[r], r);
      if s.index(s.readers[r].key) == b {
        ReaderObserves(s, s', w, b, c', Unpublished(wr), wr.cur, s.readers[r], s'.readers[r], r);
      } else {
        ReaderElsewhere(s, s', w, b, c', Unpublished(wr), wr.cur, s.readers[r], r);
      }
    }
  }

  lemma PublishKept(s: State, w: Tid)
    requires Inv(s) && CanPublish(s, w)
    ensures Inv(Publish(s, w))
  {
    var s' := Publish(s, w);
    var m, c' := PublishShape(s, w);
    PublishBuckets(s, w, s', m, c');
    PublishOwners(s, w, s', m, c');
    PublishWriters(s, w, s', m, c');
    PublishLocks(s, w, s', m, c');
    PublishReaders(s, w, s', m, c');
    assert |s'.mem.nodes.Keys| == |s.mem.nodes.Keys|;
  }

  // ---- the publish is the sequential update ----

  /** Insert maps the key to its value and remove unmaps it, both at once for every key; the
      entry unlinked is exactly the one that held the key, so remove fails iff it was absent. */
  lemma PublishIsUpdate(s: State, w: Tid, key: Key)
    requires Inv(s) && CanPublish(s, w)
    ensures Shaped(Publish(s, w))
    ensures var s', wr := Publish(s, w), s.writers[w];
      && Contents(s', key) == (if key != wr.key then Contents(s, key)
                               else if wr.op.Insert? then Some(s.mem.nodes[wr.op.node].value) else None)
      && (s'.writers[w].unlinked != NULL <==> Contents(s, wr.key) != None)
  {
    var s', wr := Publish(s, w), s.writers[w];
    var m, c' := PublishShape(s, w);
    PublishKept(s, w);
    ScanFacts(s, w);
    UpdateLookup(s, w, s', m, c', key);
    if wr.cur == NULL {
      LookupMissing(s.mem, s.chains[s.index(wr.key)], wr.key);
    } else {
      LookupMember(s.mem, s.index, s.index(wr.key), s.chains[s.index(wr.key)], wr.cur);
    }
  }

  lemma LookupMember(m: Memory, index: Key -> Index, b: Index, c: seq<Ptr>, p: Ptr)
    requires KeysOk(m, index, b, c) && p in c
    ensures p in m.nodes && Lookup(m, c, m.nodes[p].key) == Some(m.nodes[p].value)
  {
    var i :| 0 <= i < |c| && c[i] == p;
    LookupFound(m, c, i);
  }

  lemma UpdateLookup(s: State, w: Tid, s': State, m: Memory, c': seq<Ptr>, key: Key)
    requires Inv(s) && CanPublish(s, w) && Publishes(s, w, s', m, c')
    ensures Contents(s', key) == (if key != s.writers[w].key then Contents(s, key)
                                  else if s.writers[w].op.Insert? then Some(s.mem.nodes[s.writers[w].op.node].value) else None)
  {
    var wr, b := s.writers[w], s.index(s.writers[w].key);
    var c := s.chains[b];
    ScanFacts(s, w);
    if s.index(key) != b {
      ChainLinked(s, s.index(key));
      LookupFrame(s.mem, m, s.chains[s.index(key)], key);
    } else if key == wr.key && wr.op.Insert? {
      LookupMember(m, s.index, b, c', wr.op.node);
    } else if key == wr.key {
      LookupMissing(m, c', key);
    } else {
      OtherKeys(s.mem, m, s.index, b, c, c', Unpublished(wr), wr.cur, wr.key, key);
    }
  }

  lemma OtherKeys(m: Memory, m': Memory, index: Key -> Index, b: Index, c: seq<Ptr>, c': seq<Ptr>, n: Ptr, d: Ptr, changed: Key, key: Key)
    requires ListUpdate(m, m', b, c, c', n, d) && KeysOk(m, index, b, c) && KeysOk(m', index, b, c')
    requires key != changed && NULL !in m.nodes
    requires n != NULL ==> n in m.nodes && m.nodes[n].key == changed
    requires d != NULL ==> d in m.nodes && m.nodes[d].key == changed
    ensures Lookup(m', c', key) == Lookup(m, c, key)
  {
    if Lookup(m, c, key) != None {
      var i := LookupPlace(m, c, key);
      assert c[i] in c && c[i] in c';
      LookupMember(m, index, b, c, c[i]);
      LookupMember(m', index, b, c', c[i]);
    } else if Lookup(m', c', key) != None {
      var i := LookupPlace(m', c', key);
      assert c'[i] in c';
      LookupMember(m, index, b, c, c'[i]);
    }
  }
}
