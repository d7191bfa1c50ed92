/** The RCU hash map as interleaved steps of any number of writers and readers.

    Every step is one action a thread can take between two points where others may run:
    one pointer read of a traversal, one publish, one lock or unlock, one call_rcu.
    The memory is sequentially consistent.  The fields below the line in State are
    auxiliary: no step reads them to decide what to do. */
module RcuHashMap {
  import opened HlistMemory

  type Tid = nat

  // ---- which bucket a key belongs to ----

  const BUCKETS_NUM := 65536
  const TWO_64 := 0x1_0000_0000_0000_0000

  /** Folds the four 16-bit words of the key into each other; shifts are logical. */
  function EntryHash(key: bv64): bv64 {
    key ^ (key >> 16) ^ (key >> 32) ^ (key >> 48)
  }

  /** A signed 64-bit key is taken modulo 2^64 before it is hashed. */
  function BucketIndex(key: Key): (b: Index)
    ensures b < 0x1_0000
  {
    var masked := EntryHash((key % TWO_64) as bv64) & 0xFFFF;
    (masked as bv16) as nat
  }

  function Low16(x: bv64): bv16 {
    (x & 0xFFFF) as bv16
  }

  lemma MaskSpreads(a: bv64, b: bv64, c: bv64, d: bv64)
    ensures (a ^ b ^ c ^ d) & 0xFFFF == (a & 0xFFFF) ^ (b & 0xFFFF) ^ (c & 0xFFFF) ^ (d & 0xFFFF)
  {
  }

  lemma Narrow(a: bv64, b: bv64, c: bv64, d: bv64)
    requires a <= 0xFFFF && b <= 0xFFFF && c <= 0xFFFF && d <= 0xFFFF
    ensures a ^ b ^ c ^ d <= 0xFFFF
    ensures (a ^ b ^ c ^ d) as bv16 == (a as bv16) ^ (b as bv16) ^ (c as bv16) ^ (d as bv16)
  {
  }

  lemma HashFoldsWords(k: bv64)
    ensures Low16(EntryHash(k)) == Low16(k) ^ Low16(k >> 16) ^ Low16(k >> 32) ^ Low16(k >> 48)
  {
    MaskSpreads(k, k >> 16, k >> 32, k >> 48);
    Narrow(k & 0xFFFF, (k >> 16) & 0xFFFF, (k >> 32) & 0xFFFF, (k >> 48) & 0xFFFF);
  }

  /** The bucket of a key is the exclusive or of the key's four 16-bit words. */
  lemma BucketFoldsWords(key: Key)
    ensures var k := (key % TWO_64) as bv64;
      BucketIndex(key) == (Low16(k) ^ Low16(k >> 16) ^ Low16(k >> 32) ^ Low16(k >> 48)) as nat
  {
    HashFoldsWords((key % TWO_64) as bv64);
  }

  // ---- state ----

  /** An insert carries the entry it has already allocated. */
  datatype Op = Insert(node: Ptr) | Remove

  /** Where a writer is; a thread not in the map is outside any update.
      `pos` is auxiliary: the place of `cur` in the bucket's list. */
  datatype Writer =
    | Waiting(key: Key, op: Op)
    | Scanning(key: Key, op: Op, cur: Ptr, pos: nat)
    | Published(key: Key, unlinked: Ptr)
    | Retiring(unlinked: Ptr)

  datatype ReaderPc = Entered | AtNode(cur: Ptr) | Done(result: Option<Value>)

  /** A thread inside a read-side section.  Auxiliary: `seen`, every value the key has had
      since the section began; `linked`, every entry of the bucket linked since then;
      `budget`, how many more entries the traversal can visit. */
  datatype Reader = Reader(key: Key, pc: ReaderPc, seen: set<Option<Value>>, linked: set<Ptr>, budget: nat)

  /** Who is responsible for an allocated entry.  `Pending` is the state of a call_rcu:
      the readers that were active when it was called and have not left yet. */
  datatype Phase = Private(w: Tid) | Linked | Retired(w: Tid) | Pending(waiters: set<Tid>)

  datatype State = State(
    index: Key -> Index,
    mem: Memory,
    num: seq<int>,
    locks: map<Index, Tid>,
    writers: map<Tid, Writer>,
    readers: map<Tid, Reader>,
    phase: map<Ptr, Phase>,
    // auxiliary
    chains: seq<seq<Ptr>>,
    allocs: nat,
    frees: nat)

  /** What a sequential map would answer from this bucket list. */
  function Lookup(m: Memory, c: seq<Ptr>, key: Key): Option<Value> {
    if c == [] then None
    else if c[0] in m.nodes && m.nodes[c[0]].key == key then Some(m.nodes[c[0]].value)
    else Lookup(m, c[1..], key)
  }

  /** The abstract map. */
  ghost function Contents(s: State, key: Key): Option<Value>
    requires s.index(key) < |s.chains|
  {
    Lookup(s.mem, s.chains[s.index(key)], key)
  }

  /** Buckets exist for every key; `num` and `chains` have one slot per bucket. */
  ghost predicate Shaped(s: State) {
    && |s.num| == |s.chains| == |s.mem.heads|
    && (forall k: Key {:trigger s.index(k)} :: s.index(k) < |s.mem.heads|)
  }

  // ---- pe_map_insert and pe_map_remove ----

  /** The allocator may return any address that is not in use, a freed one included. */
  predicate CanBeginInsert(s: State, w: Tid, p: Ptr) {
    w !in s.writers && p != NULL && p !in s.mem.nodes
  }

  function BeginInsert(s: State, w: Tid, key: Key, value: Value, p: Ptr): State {
    s.(mem := s.mem.(nodes := s.mem.nodes[p := Node(key, value, NULL, Poison)]),
       phase := s.phase[p := Private(w)],
       writers := s.writers[w := Waiting(key, Insert(p))],
       allocs := s.allocs + 1)
  }

  predicate CanBeginRemove(s: State, w: Tid) {
    w !in s.writers
  }

  function BeginRemove(s: State, w: Tid, key: Key): State {
    s.(writers := s.writers[w := Waiting(key, Remove)])
  }

  predicate CanLock(s: State, w: Tid) {
    w in s.writers && s.writers[w].Waiting? && s.index(s.writers[w].key) !in s.locks
  }

  ghost function Lock(s: State, w: Tid): State
    requires Shaped(s) && CanLock(s, w)
  {
    var wr := s.writers[w];
    var b := s.index(wr.key);
    s.(locks := s.locks[b := w], writers := s.writers[w := Scanning(wr.key, wr.op, s.mem.heads[b], 0)])
  }

  /** The traversal has found the key or run off the list. */
  predicate AtTarget(m: Memory, cur: Ptr, key: Key) {
    cur == NULL || (cur in m.nodes && m.nodes[cur].key == key)
  }

  /** `cur` is an entry in memory, and not the one looked for. */
  predicate MustMove(m: Memory, cur: Ptr, key: Key) {
    cur != NULL && cur in m.nodes && m.nodes[cur].key != key
  }

  predicate CanAdvance(s: State, w: Tid) {
    w in s.writers && s.writers[w].Scanning? && MustMove(s.mem, s.writers[w].cur, s.writers[w].key)
  }

  function Advance(s: State, w: Tid): State
    requires CanAdvance(s, w)
  {
    var wr := s.writers[w];
    s.(writers := s.writers[w := wr.(cur := s.mem.nodes[wr.cur].next, pos := wr.pos + 1)])
  }

  predicate CanPublish(s: State, w: Tid) {
    && w in s.writers && s.writers[w].Scanning? && AtTarget(s.mem, s.writers[w].cur, s.writers[w].key)
    && (s.writers[w].op.Insert? ==> s.writers[w].op.node in s.mem.nodes)
  }

  /** The stores of a publish: replace the entry found, add at the head, unlink, or nothing. */
  function PublishedMemory(m: Memory, b: Index, op: Op, cur: Ptr): Memory
    requires b < |m.heads| && (op.Insert? ==> op.node in m.nodes) && (cur != NULL ==> cur in m.nodes)
  {
    match op
    case Insert(n) => if cur == NULL then AddHeadRcu(m, n, b) else ReplaceRcu(m, cur, n)
    case Remove => if cur == NULL then m else DelRcu(m, cur)
  }

  /** The change of `bucket->num`. */
  function PublishedCount(op: Op, cur: Ptr): int {
    if op.Insert? && cur == NULL then 1 else if op.Remove? && cur != NULL then -1 else 0
  }

  /** Auxiliary: the list the bucket holds afterwards, and who owns the entries. */
  function PublishedChain(c: seq<Ptr>, op: Op, cur: Ptr, pos: nat): seq<Ptr> {
    if cur != NULL && pos >= |c| then c else
    match op
    case Insert(n) => if cur == NULL then [n] + c else c[pos := n]
    case Remove => if cur == NULL then c else c[..pos] + c[pos + 1..]
  }

  function PublishedPhase(phase: map<Ptr, Phase>, w: Tid, op: Op, cur: Ptr): map<Ptr, Phase> {
    var linked := if op.Insert? then phase[op.node := Linked] else phase;
    if cur == NULL then linked else linked[cur := Retired(w)]
  }

  /** The single reader-visible store of an update, made with the bucket lock held. */
  ghost function Publish(s: State, w: Tid): State
    requires Shaped(s) && CanPublish(s, w)
  {
    var wr := s.writers[w];
    var b := s.index(wr.key);
    Rewrite(s, w, PublishedMemory(s.mem, b, wr.op, wr.cur), PublishedChain(s.chains[b], wr.op, wr.cur, wr.pos))
  }

  ghost function Rewrite(s: State, w: Tid, m: Memory, c: seq<Ptr>): State
    requires Shaped(s) && CanPublish(s, w)
  {
    var wr := s.writers[w];
    var b := s.index(wr.key);
    s.(mem := m,
       num := s.num[b := s.num[b] + PublishedCount(wr.op, wr.cur)],
       writers := s.writers[w := Published(wr.key, wr.cur)],
       phase := PublishedPhase(s.phase, w, wr.op, wr.cur),
       chains := s.chains[b := c],
       readers := map r | r in s.readers :: Observe(s.index, s.readers[r], b, m, c))
  }

  /** Auxiliary: a reader of the bucket notes the value and the entries it holds now. */
  ghost function Observe(index: Key -> Index, rd: Reader, b: Index, m: Memory, c: seq<Ptr>): Reader {
    if index(rd.key) != b then rd
    else rd.(seen := rd.seen + {Lookup(m, c, rd.key)}, linked := rd.linked + Elements(c))
  }

  predicate CanUnlock(s: State, w: Tid) {
    w in s.writers && s.writers[w].Published?
  }

  function Unlock(s: State, w: Tid): State
    requires CanUnlock(s, w)
  {
    var wr := s.writers[w];
    s.(locks := s.locks - {s.index(wr.key)},
       writers := if wr.unlinked == NULL then s.writers - {w} else s.writers[w := Retiring(wr.unlinked)])
  }

  predicate CanCallRcu(s: State, w: Tid) {
    w in s.writers && s.writers[w].Retiring?
  }

  function CallRcu(s: State, w: Tid): State
    requires CanCallRcu(s, w)
  {
    s.(phase := s.phase[s.writers[w].unlinked := Pending(s.readers.Keys)], writers := s.writers - {w})
  }

  // ---- pe_map_get ----

  predicate CanEnter(s: State, r: Tid) {
    r !in s.readers
  }

  ghost function Enter(s: State, r: Tid, key: Key): State
    requires Shaped(s)
  {
    var c := s.chains[s.index(key)];
    s.(readers := s.readers[r := Reader(key, Entered, {Lookup(s.mem, c, key)}, Elements(c), 0)])
  }

  predicate CanReadHead(s: State, r: Tid) {
    r in s.readers && s.readers[r].pc.Entered?
  }

  ghost function ReadHead(s: State, r: Tid): State
    requires Shaped(s) && CanReadHead(s, r)
  {
    var rd := s.readers[r];
    var b := s.index(rd.key);
    s.(readers := s.readers[r := rd.(pc := AtNode(s.mem.heads[b]), budget := |s.chains[b]|)])
  }

  predicate CanReadNext(s: State, r: Tid) {
    r in s.readers && s.readers[r].pc.AtNode? && MustMove(s.mem, s.readers[r].pc.cur, s.readers[r].key)
  }

  function ReadNext(s: State, r: Tid): State
    requires CanReadNext(s, r)
  {
    var rd := s.readers[r];
    var budget := if rd.budget == 0 then 0 else rd.budget - 1;
    s.(readers := s.readers[r := rd.(pc := AtNode(s.mem.nodes[rd.pc.cur].next), budget := budget)])
  }

  predicate CanReturn(s: State, r: Tid) {
    r in s.readers && s.readers[r].pc.AtNode? && AtTarget(s.mem, s.readers[r].pc.cur, s.readers[r].key)
  }

  function Return(s: State, r: Tid): State
    requires CanReturn(s, r)
  {
    var rd := s.readers[r];
    var result := if rd.pc.cur == NULL then None else Some(s.mem.nodes[rd.pc.cur].value);
    s.(readers := s.readers[r := rd.(pc := Done(result))])
  }

  predicate CanExit(s: State, r: Tid) {
    r in s.readers && s.readers[r].pc.Done?
  }

  /** A reader's exit lets every callback that waited for it come one step closer. */
  function Exit(s: State, r: Tid): State {
    s.(readers := s.readers - {r}, phase := map p | p in s.phase :: Leave(s.phase[p], r))
  }

  function Leave(ph: Phase, r: Tid): Phase {
    if ph.Pending? then Pending(ph.waiters - {r}) else ph
  }

  // ---- pe_entry_free_rcu, run when the last awaited reader has left ----

  predicate CanReclaim(s: State, p: Ptr) {
    p in s.phase && p in s.mem.nodes && s.phase[p] == Pending({})
  }

  function Reclaim(s: State, p: Ptr): State {
    s.(mem := s.mem.(nodes := s.mem.nodes - {p}), phase := s.phase - {p}, frees := s.frees + 1)
  }

  // ---- steps and runs ----

  datatype Action =
    | ABeginInsert(w: Tid, key: Key, value: Value, p: Ptr)
    | ABeginRemove(w: Tid, key: Key)
    | ALock(w: Tid)
    | AAdvance(w: Tid)
    | APublish(w: Tid)
    | AUnlock(w: Tid)
    | ACallRcu(w: Tid)
    | AEnter(r: Tid, key: Key)
    | AReadHead(r: Tid)
    | AReadNext(r: Tid)
    | AReturn(r: Tid)
    | AExit(r: Tid)
    | AReclaim(p: Ptr)

  ghost predicate Step(s: State, a: Action, s': State)
    requires Shaped(s)
  {
    match a
    case ABeginInsert(w, key, value, p) => CanBeginInsert(s, w, p) && s' == BeginInsert(s, w, key, value, p)
    case ABeginRemove(w, key) => CanBeginRemove(s, w) && s' == BeginRemove(s, w, key)
    case ALock(w) => CanLock(s, w) && s' == Lock(s, w)
    case AAdvance(w) => CanAdvance(s, w) && s' == Advance(s, w)
    case APublish(w) => CanPublish(s, w) && s' == Publish(s, w)
    case AUnlock(w) => CanUnlock(s, w) && s' == Unlock(s, w)
    case ACallRcu(w) => CanCallRcu(s, w) && s' == CallRcu(s, w)
    case AEnter(r, key) => CanEnter(s, r) && s' == Enter(s, r, key)
    case AReadHead(r) => CanReadHead(s, r) && s' == ReadHead(s, r)
    case AReadNext(r) => CanReadNext(s, r) && s' == ReadNext(s, r)
    case AReturn(r) => CanReturn(s, r) && s' == Return(s, r)
    case AExit(r) => CanExit(s, r) && s' == Exit(s, r)
    case AReclaim(p) => CanReclaim(s, p) && s' == Reclaim(s, p)
  }

  ghost predicate Next(s: State, s': State) {
    Shaped(s) && exists a :: Step(s, a, s')
  }

  /** A map just created, with any number of buckets and any hash. */
  ghost predicate Init(s: State) {
    && Shaped(s)
    && (forall b :: 0 <= b < |s.mem.heads| ==> s.mem.heads[b] == NULL && s.num[b] == 0 && s.chains[b] == [])
    && s.mem.nodes == map[] && s.phase == map[] && s.locks == map[] && s.writers == map[] && s.readers == map[]
    && s.allocs == 0 && s.frees == 0
  }

  ghost predicate IsRun(run: seq<State>) {
    && |run| > 0 && Init(run[0])
    && forall i {:trigger Next(run[i - 1], run[i])} :: 0 < i < |run| ==> Next(run[i - 1], run[i])
  }
}
