/** What every step of the RCU hash map keeps. */
module RcuInvariants {
  import opened HlistMemory
  import opened RcuHashMap

  // ---- the invariant ----

  ghost predicate Inv(s: State) {
    && Shaped(s)
    && (forall b :: 0 <= b < |s.chains| ==> BucketOk(s, b))
    && PhasesOk(s)
    && (forall w :: w in s.writers ==> WriterOk(s, w))
    && (forall b :: b in s.locks ==> LockOk(s, b))
    && (forall r :: r in s.readers ==> ReaderOk(s, s.readers[r], r))
    && s.allocs == |s.mem.nodes| + s.frees
  }

  /** Each bucket is a well-linked list without duplicate keys, and `num` counts it. */
  ghost predicate BucketOk(s: State, b: Index)
    requires Shaped(s) && b < |s.chains|
  {
    && IsList(s.mem, b, s.chains[b])
    && KeysOk(s.mem, s.index, b, s.chains[b])
    && s.num[b] == |s.chains[b]|
  }

  ghost predicate KeysOk(m: Memory, index: Key -> Index, b: Index, c: seq<Ptr>) {
    && (forall i :: 0 <= i < |c| ==> c[i] in m.nodes && index(m.nodes[c[i]].key) == b)
    && (forall i, j :: 0 <= i < j < |c| ==> m.nodes[c[i]].key != m.nodes[c[j]].key)
  }

  /** Every allocated entry is in exactly one hand: a writer that has not published it, its
      bucket's list, the writer that unlinked it, or a callback that is waiting. */
  ghost predicate PhasesOk(s: State)
    requires Shaped(s)
  {
    && s.phase.Keys == s.mem.nodes.Keys && NULL !in s.mem.nodes
    && forall p :: p in s.mem.nodes ==> PhaseOk(s, p)
  }

  ghost predicate PhaseOk(s: State, p: Ptr)
    requires Shaped(s) && p in s.mem.nodes && p in s.phase
  {
    && (s.phase[p].Linked? <==> p in s.chains[s.index(s.mem.nodes[p].key)])
    && (s.phase[p].Private? ==> s.phase[p].w in s.writers && Unpublished(s.writers[s.phase[p].w]) == p)
    && (s.phase[p].Retired? ==> s.phase[p].w in s.writers && Unlinked(s.writers[s.phase[p].w]) == p)
  }

  function Unpublished(wr: Writer): Ptr {
    if (wr.Waiting? || wr.Scanning?) && wr.op.Insert? then wr.op.node else NULL
  }

  function Unlinked(wr: Writer): Ptr {
    if wr.Published? || wr.Retiring? then wr.unlinked else NULL
  }

  ghost predicate WriterOk(s: State, w: Tid)
    requires Shaped(s) && w in s.writers
  {
    var wr := s.writers[w];
    && ((wr.Waiting? || wr.Scanning?) && wr.op.Insert? ==>
         && wr.op.node in s.mem.nodes && wr.op.node in s.phase && s.phase[wr.op.node] == Private(w)
         && s.mem.nodes[wr.op.node].key == wr.key)
    && (Unlinked(wr) != NULL ==> Unlinked(wr) in s.phase && s.phase[Unlinked(wr)] == Retired(w))
    && (wr.Retiring? ==> wr.unlinked != NULL)
    && (wr.Scanning? || wr.Published? ==> s.index(wr.key) in s.locks && s.locks[s.index(wr.key)] == w)
    && (wr.Scanning? ==> ScanOk(s.mem, s.chains[s.index(wr.key)], wr))
  }

  /** The scan stands at place `pos` of the list and the key is not before it. */
  ghost predicate ScanOk(m: Memory, c: seq<Ptr>, wr: Writer)
    requires wr.Scanning?
  {
    && wr.pos <= |c| && wr.cur == At(c, wr.pos)
    && forall i :: 0 <= i < wr.pos ==> c[i] in m.nodes && m.nodes[c[i]].key != wr.key
  }

  ghost predicate LockOk(s: State, b: Index)
    requires b in s.locks
  {
    && s.locks[b] in s.writers
    && var wr := s.writers[s.locks[b]]; (wr.Scanning? || wr.Published?) && s.index(wr.key) == b
  }

  // ---- what a reader can rely on ----

  ghost predicate ReaderOk(s: State, rd: Reader, r: Tid)
    requires Shaped(s)
  {
    var b := s.index(rd.key);
    var c := s.chains[b];
    && Lookup(s.mem, c, rd.key) in rd.seen
    && Elements(c) <= rd.linked
    && (forall p :: p in rd.linked ==> Protected(s, rd, r, p))
    && (rd.pc.AtNode? ==> CursorOk(s.mem, rd, rd.pc.cur))
    && (rd.pc.Done? ==> rd.pc.result in rd.seen)
  }

  /** An entry linked since the reader began is still allocated, cannot be reclaimed before the
      reader leaves, keeps leading to such entries, and its value was current at some instant. */
  ghost predicate Protected(s: State, rd: Reader, r: Tid, p: Ptr) {
    && p in s.mem.nodes && p in s.phase
    && (s.phase[p].Linked? || s.phase[p].Retired? || (s.phase[p].Pending? && r in s.phase[p].waiters))
    && s.index(s.mem.nodes[p].key) == s.index(rd.key)
    && (s.mem.nodes[p].key == rd.key ==> Some(s.mem.nodes[p].value) in rd.seen)
    && (s.mem.nodes[p].next == NULL || s.mem.nodes[p].next in rd.linked)
  }

  ghost predicate CursorOk(m: Memory, rd: Reader, cur: Ptr) {
    && (cur == NULL || cur in rd.linked)
    && Ends(m, cur, rd.budget)
    && (None !in rd.seen ==> Hits(m, cur, rd.key, rd.budget))
  }

  /** At most `n` more entries can be visited from `p`. */
  ghost predicate Ends(m: Memory, p: Ptr, n: nat)
    decreases n
  {
    p == NULL || (n > 0 && p in m.nodes && Ends(m, m.nodes[p].next, n - 1))
  }

  /** An entry with the key is met within `n` visits from `p`, through linked or unlinked entries. */
  ghost predicate Hits(m: Memory, p: Ptr, key: Key, n: nat)
    decreases n
  {
    p != NULL && n > 0 && p in m.nodes && (m.nodes[p].key == key || Hits(m, m.nodes[p].next, key, n - 1))
  }

  lemma {:induction false} EndsMonotone(m: Memory, p: Ptr, n: nat)
    requires Ends(m, p, n)
    ensures Ends(m, p, n + 1)
    decreases n
  {
    if p != NULL {
      EndsMonotone(m, m.nodes[p].next, n - 1);
    }
  }

  lemma {:induction false} HitsMonotone(m: Memory, p: Ptr, key: Key, n: nat)
    requires Hits(m, p, key, n)
    ensures Hits(m, p, key, n + 1)
    decreases n
  {
    if m.nodes[p].key != key {
      HitsMonotone(m, m.nodes[p].next, key, n - 1);
    }
  }

  /** Seen from the entries of `l`, a store may redirect a pointer past one entry, or to a
      replacement of it that has the same key and the same successor. */
  ghost predicate Redirects(m: Memory, m': Memory, l: set<Ptr>) {
    forall p :: p in l ==>
      && p in m.nodes && p in m'.nodes
      && m'.nodes[p].key == m.nodes[p].key && m'.nodes[p].value == m.nodes[p].value
      && (m.nodes[p].next == NULL || m.nodes[p].next in l)
      && (m'.nodes[p].next == m.nodes[p].next || Skips(m, m', p) || Swaps(m, m', p))
  }

  ghost predicate Skips(m: Memory, m': Memory, p: Ptr)
    requires p in m.nodes && p in m'.nodes
  {
    var d := m.nodes[p].next;
    d in m.nodes && m'.nodes[p].next == m.nodes[d].next && d != NULL
  }

  ghost predicate Swaps(m: Memory, m': Memory, p: Ptr)
    requires p in m.nodes && p in m'.nodes
  {
    var d, n := m.nodes[p].next, m'.nodes[p].next;
    && d in m.nodes && n in m'.nodes && n != NULL && d != NULL
    && m'.nodes[n].key == m.nodes[d].key && m'.nodes[n].next == m.nodes[d].next
  }

  /** No entry with the key is skipped. */
  ghost predicate KeepsKey(m: Memory, m': Memory, l: set<Ptr>, key: Key) {
    forall p :: p in l && p in m.nodes && p in m'.nodes && m'.nodes[p].next != m.nodes[p].next && !Swaps(m, m', p) ==>
      m.nodes[p].next in m.nodes && m.nodes[m.nodes[p].next].key != key
  }

  lemma {:induction false} EndsKept(m: Memory, m': Memory, l: set<Ptr>, p: Ptr, n: nat)
    requires Redirects(m, m', l) && (p == NULL || p in l) && Ends(m, p, n)
    ensures Ends(m', p, n)
    decreases n
  {
    if p != NULL {
      var d, d' := m.nodes[p].next, m'.nodes[p].next;
      if d' == d {
        EndsKept(m, m', l, d, n - 1);
      } else {
        EndsKept(m, m', l, m.nodes[d].next, n - 2);
        if !Swaps(m, m', p) {
          EndsMonotone(m', d', n - 2);
        }
      }
    }
  }

  lemma {:induction false} HitsKept(m: Memory, m': Memory, l: set<Ptr>, p: Ptr, key: Key, n: nat)
    requires Redirects(m, m', l) && KeepsKey(m, m', l, key) && p in l && Hits(m, p, key, n)
    ensures Hits(m', p, key, n)
    decreases n
  {
    if m.nodes[p].key != key {
      var d, d' := m.nodes[p].next, m'.nodes[p].next;
      if d' == d {
        HitsKept(m, m', l, d, key, n - 1);
      } else if m.nodes[d].key != key {
        assert d in l && Hits(m, m.nodes[d].next, key, n - 2);
        HitsKept(m, m', l, m.nodes[d].next, key, n - 2);
        if !Swaps(m, m', p) {
          HitsMonotone(m', d', key, n - 2);
        }
      }
    }
  }

  lemma CursorKept(m: Memory, m': Memory, rd: Reader, rd': Reader, cur: Ptr)
    requires CursorOk(m, rd, cur) && Redirects(m, m', rd.linked)
    requires rd'.key == rd.key && rd'.budget == rd.budget && rd.linked <= rd'.linked && rd.seen <= rd'.seen
    requires None !in rd'.seen ==> KeepsKey(m, m', rd.linked, rd.key)
    ensures CursorOk(m', rd', cur)
  {
    EndsKept(m, m', rd.linked, cur, rd.budget);
    if None !in rd'.seen {
      HitsKept(m, m', rd.linked, cur, rd.key, rd.budget);
    }
  }

  // ---- lists and lookups ----

  lemma {:induction false} LookupFound(m: Memory, c: seq<Ptr>, i: nat)
    requires i < |c| && forall j :: 0 <= j < |c| ==> c[j] in m.nodes
    requires forall j :: 0 <= j < i ==> m.nodes[c[j]].key != m.nodes[c[i]].key
    ensures Lookup(m, c, m.nodes[c[i]].key) == Some(m.nodes[c[i]].value)
  {
    if i > 0 {
      LookupFound(m, c[1..], i - 1);
    }
  }

  lemma {:induction false} LookupMissing(m: Memory, c: seq<Ptr>, key: Key)
    requires forall j :: 0 <= j < |c| ==> c[j] in m.nodes && m.nodes[c[j]].key != key
    ensures Lookup(m, c, key) == None
  {
    if c != [] {
      LookupMissing(m, c[1..], key);
    }
  }

  /** The place of a key that the list holds. */
  lemma {:induction false} LookupPlace(m: Memory, c: seq<Ptr>, key: Key) returns (i: nat)
    requires Lookup(m, c, key) != None
    ensures i < |c| && c[i] in m.nodes && m.nodes[c[i]].key == key
  {
    if c[0] in m.nodes && m.nodes[c[0]].key == key {
      i := 0;
    } else {
      i := LookupPlace(m, c[1..], key);
      i := i + 1;
    }
  }

  lemma {:induction false} LookupFrame(m: Memory, m': Memory, c: seq<Ptr>, key: Key)
    requires forall p :: p in c ==> p in m.nodes && p in m'.nodes && m'.nodes[p].key == m.nodes[p].key && m'.nodes[p].value == m.nodes[p].value
    ensures Lookup(m', c, key) == Lookup(m, c, key)
  {
    if c != [] {
      assert c[0] in c;
      LookupFrame(m, m', c[1..], key);
    }
  }

  /** From the head of a list the traversal ends within its length, and meets a key it holds. */
  lemma {:induction false} ListReaches(m: Memory, b: Index, c: seq<Ptr>, i: nat)
    requires IsList(m, b, c) && i <= |c|
    ensures Ends(m, At(c, i), |c| - i)
    ensures forall k :: i <= k < |c| && c[k] in m.nodes ==> Hits(m, At(c, i), m.nodes[c[k]].key, |c| - i)
    decreases |c| - i
  {
    if i < |c| {
      assert IsLink(m, b, c, i);
      ListReaches(m, b, c, i + 1);
    }
  }
}
