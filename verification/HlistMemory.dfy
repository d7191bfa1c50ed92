/** The memory of one hash map and the kernel's hlist primitives over it.

    A hlist is a head pointer and nodes that carry `next` and `pprev`; `pprev` is
    the address of the pointer that points at the node, so it is modelled as a Slot:
    a bucket head, the `next` field of a node, or the poison value.  The three
    publishing primitives follow the kernel's definitions store by store; only one
    of their stores can be seen by a reader. */
module HlistMemory {

  type Key = int
  type Value = int
  type Index = nat
  type Ptr = nat

  const NULL: Ptr := 0

  datatype Option<T> = None | Some(value: T)

  datatype Slot = HeadSlot(b: Index) | NextSlot(p: Ptr) | Poison

  datatype Node = Node(key: Key, value: Value, next: Ptr, pprev: Slot)

  /** `nodes` holds the allocated entries: an address outside it is not (or no longer) an entry. */
  datatype Memory = Memory(heads: seq<Ptr>, nodes: map<Ptr, Node>)

  /** `*slot = p` */
  function Store(m: Memory, slot: Slot, p: Ptr): Memory {
    match slot
    case HeadSlot(b) => if b < |m.heads| then m.(heads := m.heads[b := p]) else m
    case NextSlot(q) => if q in m.nodes then m.(nodes := m.nodes[q := m.nodes[q].(next := p)]) else m
    case Poison => m
  }

  /** `if (p) p->pprev = slot` */
  function SetPprev(m: Memory, p: Ptr, slot: Slot): Memory {
    if p != NULL && p in m.nodes then m.(nodes := m.nodes[p := m.nodes[p].(pprev := slot)]) else m
  }

  function AddHeadRcu(m: Memory, n: Ptr, b: Index): Memory
    requires n in m.nodes && b < |m.heads|
  {
    var first := m.heads[b];
    var m1 := m.(nodes := m.nodes[n := m.nodes[n].(next := first, pprev := HeadSlot(b))]);
    var m2 := Store(m1, HeadSlot(b), n);
    SetPprev(m2, first, NextSlot(n))
  }

  function ReplaceRcu(m: Memory, gone: Ptr, n: Ptr): Memory
    requires gone in m.nodes && n in m.nodes
  {
    var next, pprev := m.nodes[gone].next, m.nodes[gone].pprev;
    var m1 := m.(nodes := m.nodes[n := m.nodes[n].(next := next, pprev := pprev)]);
    var m2 := Store(m1, pprev, n);
    var m3 := SetPprev(m2, next, NextSlot(n));
    SetPprev(m3, gone, Poison)
  }

  function DelRcu(m: Memory, n: Ptr): Memory
    requires n in m.nodes
  {
    var next, pprev := m.nodes[n].next, m.nodes[n].pprev;
    var m1 := Store(m, pprev, next);
    var m2 := SetPprev(m1, next, pprev);
    SetPprev(m2, n, Poison)
  }

  // ---- the list a bucket holds ----

  function At(c: seq<Ptr>, i: nat): Ptr {
    if i < |c| then c[i] else NULL
  }

  function SlotAt(b: Index, c: seq<Ptr>, i: nat): Slot
    requires i <= |c|
  {
    if i == 0 then HeadSlot(b) else NextSlot(c[i - 1])
  }

  ghost predicate Distinct(c: seq<Ptr>) {
    forall i, j :: 0 <= i < j < |c| ==> c[i] != c[j]
  }

  /** Following `head` and `next` from bucket `b` visits exactly `c`, and every back pointer is right. */
  ghost predicate IsList(m: Memory, b: Index, c: seq<Ptr>) {
    && b < |m.heads| && m.heads[b] == At(c, 0)
    && Distinct(c)
    && forall i :: 0 <= i < |c| ==> IsLink(m, b, c, i)
  }

  ghost predicate IsLink(m: Memory, b: Index, c: seq<Ptr>, i: nat)
    requires i < |c|
  {
    && c[i] != NULL && c[i] in m.nodes
    && m.nodes[c[i]].next == At(c, i + 1)
    && m.nodes[c[i]].pprev == SlotAt(b, c, i)
  }

  /** The two memories agree on everything that makes `c` the list of bucket `b`. */
  ghost predicate SameList(m: Memory, m': Memory, b: Index, c: seq<Ptr>) {
    && b < |m.heads| && b < |m'.heads| && m.heads[b] == m'.heads[b]
    && forall p :: p in c ==> p in m.nodes && p in m'.nodes && m.nodes[p] == m'.nodes[p]
  }

  lemma ListFrame(m: Memory, m': Memory, b: Index, c: seq<Ptr>)
    requires IsList(m, b, c) && SameList(m, m', b, c)
    ensures IsList(m', b, c)
  {
    forall i | 0 <= i < |c| ensures IsLink(m', b, c, i) {
      assert IsLink(m, b, c, i) && c[i] in c;
    }
  }

  /** `m'` keeps every key and value of `m`; a `next` can differ only at `except`. */
  ghost predicate SameEntries(m: Memory, m': Memory, except: set<Ptr>) {
    forall p :: p in m.nodes ==>
      && p in m'.nodes
      && m'.nodes[p].key == m.nodes[p].key && m'.nodes[p].value == m.nodes[p].value
      && (p !in except ==> m'.nodes[p].next == m.nodes[p].next)
  }

  /** `m'` differs from `m` at most in bucket `b` and the nodes of `touched`. */
  ghost predicate OnlyTouches(m: Memory, m': Memory, b: Index, touched: set<Ptr>) {
    && m'.nodes.Keys == m.nodes.Keys && |m'.heads| == |m.heads|
    && (forall a :: 0 <= a < |m.heads| && a != b ==> m'.heads[a] == m.heads[a])
    && (forall p :: p in m.nodes && p !in touched ==> m'.nodes[p] == m.nodes[p])
  }

  ghost function Elements(c: seq<Ptr>): set<Ptr> {
    set p | p in c
  }

  lemma AddHeadList(m: Memory, b: Index, c: seq<Ptr>, n: Ptr)
    requires IsList(m, b, c) && n in m.nodes && n != NULL && n !in c
    ensures var m' := AddHeadRcu(m, n, b);
      && IsList(m', b, [n] + c)
      && OnlyTouches(m, m', b, Elements(c) + {n})
      && SameEntries(m, m', {n})
  {
    var m', c' := AddHeadRcu(m, n, b), [n] + c;
    assert c != [] ==> IsLink(m, b, c, 0);
    assert c' [0] == n && c'[1..] == c && m'.heads[b] == n;
    forall i | 0 <= i < |c'| ensures IsLink(m', b, c', i) {
      if i > 0 {
        assert c'[i] == c[i - 1] && IsLink(m, b, c, i - 1);
        assert i > 1 ==> c[i - 1] != c[0] && c'[i - 1] == c[i - 2];
        assert At(c', i + 1) == At(c, i);
      }
    }
  }

  /** What `DelRcu` and `ReplaceRcu` of the `k`-th entry leave in the other nodes: the
      predecessor points at `target`, and the successor points back at `back`. */
  ghost predicate Relinked(m: Memory, m': Memory, b: Index, c: seq<Ptr>, k: nat, target: Ptr, back: Slot, others: set<Ptr>)
    requires IsList(m, b, c) && k < |c|
  {
    && m'.nodes.Keys == m.nodes.Keys
    && m'.heads == (if k == 0 then m.heads[b := target] else m.heads)
    && (forall p :: p in m.nodes && p !in others ==> m'.nodes[p] == Relink(m, c, k, target, back, p))
  }

  ghost function Relink(m: Memory, c: seq<Ptr>, k: nat, target: Ptr, back: Slot, p: Ptr): Node
    requires k < |c| && p in m.nodes
  {
    if k > 0 && p == c[k - 1] then m.nodes[p].(next := target)
    else if p == c[k] then m.nodes[p].(pprev := Poison)
    else if k + 1 < |c| && p == c[k + 1] then m.nodes[p].(pprev := back)
    else m.nodes[p]
  }

  lemma ReplaceRelinks(m: Memory, b: Index, c: seq<Ptr>, k: nat, n: Ptr)
    requires IsList(m, b, c) && k < |c| && n in m.nodes && n != NULL && n !in c
    ensures c[k] in m.nodes
    ensures var m' := ReplaceRcu(m, c[k], n);
      && Relinked(m, m', b, c, k, n, NextSlot(n), {n})
      && m'.nodes[n] == m.nodes[n].(next := At(c, k + 1), pprev := SlotAt(b, c, k))
  {
    assert IsLink(m, b, c, k);
    assert k > 0 ==> IsLink(m, b, c, k - 1) && c[k - 1] != c[k];
    assert k + 1 < |c| ==> IsLink(m, b, c, k + 1) && c[k + 1] != c[k];
    assert 0 < k && k + 1 < |c| ==> c[k - 1] != c[k + 1];
  }

  lemma DelRelinks(m: Memory, b: Index, c: seq<Ptr>, k: nat)
    requires IsList(m, b, c) && k < |c|
    ensures c[k] in m.nodes
    ensures Relinked(m, DelRcu(m, c[k]), b, c, k, At(c, k + 1), SlotAt(b, c, k), {})
  {
    assert IsLink(m, b, c, k);
    assert k > 0 ==> IsLink(m, b, c, k - 1) && c[k - 1] != c[k];
    assert k + 1 < |c| ==> IsLink(m, b, c, k + 1) && c[k + 1] != c[k];
    assert 0 < k && k + 1 < |c| ==> c[k - 1] != c[k + 1];
  }

  lemma ReplacedList(m: Memory, b: Index, c: seq<Ptr>, k: nat, n: Ptr, m': Memory)
    requires IsList(m, b, c) && k < |c| && n in m.nodes && n != NULL && n !in c
    requires Relinked(m, m', b, c, k, n, NextSlot(n), {n})
    requires m'.nodes[n] == m.nodes[n].(next := At(c, k + 1), pprev := SlotAt(b, c, k))
    ensures IsList(m', b, c[k := n])
    ensures OnlyTouches(m, m', b, Elements(c) + {n})
  {
    var c' := c[k := n];
    forall i | 0 <= i < |c'| ensures IsLink(m', b, c', i) {
      assert IsLink(m, b, c, i);
      if i != k {
        assert c'[i] == c[i] && c[i] != n && c[i] != c[k];
        assert k > 0 && i != k - 1 ==> c[i] != c[k - 1];
        assert k + 1 < |c| && i != k + 1 ==> c[i] != c[k + 1];
        assert m'.nodes[c[i]] == Relink(m, c, k, n, NextSlot(n), c[i]);
      }
    }
    assert m'.heads[b] == At(c', 0);
  }

  lemma DeletedList(m: Memory, b: Index, c: seq<Ptr>, k: nat, m': Memory)
    requires IsList(m, b, c) && k < |c|
    requires Relinked(m, m', b, c, k, At(c, k + 1), SlotAt(b, c, k), {})
    ensures IsList(m', b, c[..k] + c[k + 1..])
    ensures OnlyTouches(m, m', b, Elements(c))
  {
    var c' := c[..k] + c[k + 1..];
    forall i | 0 <= i < |c'| ensures IsLink(m', b, c', i) {
      var j := if i < k then i else i + 1;
      assert IsLink(m, b, c, j) && c'[i] == c[j] && c[j] != c[k];
      assert k > 0 && j != k - 1 ==> c[j] != c[k - 1];
      assert k + 1 < |c| && j != k + 1 ==> c[j] != c[k + 1];
      assert m'.nodes[c[j]] == Relink(m, c, k, At(c, k + 1), SlotAt(b, c, k), c[j]);
      assert i + 1 < |c'| ==> c'[i + 1] == c[if i + 1 < k then i + 1 else i + 2];
      assert i > 0 ==> c'[i - 1] == c[if i - 1 < k then i - 1 else i];
    }
    assert m'.heads[b] == At(c', 0);
  }
}
