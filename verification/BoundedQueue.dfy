/** A bounded queue in shared memory, guarded by three semaphores. */
module BoundedQueue {
  import opened Numbers

  type Item = seq<byte>

  // ---- slots of the byte array ----

  /** The bytes of slot `k`. */
  function ReadSlot(m: seq<byte>, size: nat, k: nat): (item: Item)
    requires size * (k + 1) <= |m|
    ensures |item| == size
  {
    NextSlot(size, k);
    m[size * k..size * k + size]
  }

  function WriteSlot(m: seq<byte>, size: nat, k: nat, item: Item): (m': seq<byte>)
    requires size * (k + 1) <= |m| && |item| == size
    ensures |m'| == |m|
  {
    NextSlot(size, k);
    m[..size * k] + item + m[size * k + size..]
  }

  lemma NextSlot(size: nat, k: nat)
    ensures size * (k + 1) == size * k + size
  {
  }

  lemma {:induction false} SlotsDisjoint(size: nat, j: nat, k: nat)
    requires j < k
    ensures size * j + size <= size * k
  {
    NextSlot(size, k - 1);
    if j < k - 1 {
      SlotsDisjoint(size, j, k - 1);
    }
  }

  lemma SlotFits(size: nat, k: nat, n: nat)
    requires k < n
    ensures size * (k + 1) <= size * n
  {
    NextSlot(size, k);
    SlotsDisjoint(size, k, n);
  }

  /** A slot written is read back, and no other slot changes. */
  lemma WrittenSlot(m: seq<byte>, size: nat, k: nat, item: Item, j: nat)
    requires size * (k + 1) <= |m| && size * (j + 1) <= |m| && |item| == size
    ensures ReadSlot(WriteSlot(m, size, k, item), size, j) == if j == k then item else ReadSlot(m, size, j)
  {
    NextSlot(size, j);
    NextSlot(size, k);
    if j < k {
      SlotsDisjoint(size, j, k);
    } else if k < j {
      SlotsDisjoint(size, k, j);
    }
  }

  /** The queue's memory and cursors, as a process sees them while it holds the mutex. */
  class BoundedBlockingQueue {
    const itemSize: nat
    const queueSize: nat
    const que: array<byte>
    var f: nat
    var p: nat

    ghost predicate Valid() {
      queueSize > 0 && que.Length == itemSize * queueSize
    }

    constructor (itemSize: nat, queueSize: nat)
      requires queueSize > 0
      ensures Valid() && f == 0 && p == 0 && this.itemSize == itemSize && this.queueSize == queueSize && fresh(que)
    {
      this.itemSize, this.queueSize := itemSize, queueSize;
      f, p := 0, 0;
      que := new byte[itemSize * queueSize];
    }

    /** The critical section of bbq_put. */
    method Store(item: array<byte>)
      requires Valid() && item.Length == itemSize && item != que
      modifies this`p, que
      ensures p == old(p) + 1
      ensures old(p) % queueSize < queueSize && itemSize * (old(p) % queueSize + 1) <= que.Length
      ensures que[..] == WriteSlot(old(que[..]), itemSize, old(p) % queueSize, item[..])
    {
      var k := p % queueSize;
      p := p + 1;
      SlotFits(itemSize, k, queueSize);
      NextSlot(itemSize, k);
      var pointer := itemSize * k;
      ghost var m := que[..];
      var i := 0;
      while i < itemSize
        invariant i <= itemSize && p == old(p) + 1 && que[..] == m[..pointer] + item[..i] + m[pointer + i..]
      {
        que[pointer + i] := item[i];
        i := i + 1;
      }
    }

    /** The critical section of bbq_take. */
    method Load(item: array<byte>)
      requires Valid() && item.Length == itemSize && item != que
      modifies this`f, item
      ensures f == old(f) + 1
      ensures old(f) % queueSize < queueSize && itemSize * (old(f) % queueSize + 1) <= que.Length
      ensures item[..] == ReadSlot(que[..], itemSize, old(f) % queueSize)
    {
      var k := f % queueSize;
      f := f + 1;
      SlotFits(itemSize, k, queueSize);
      NextSlot(itemSize, k);
      var pointer := itemSize * k;
      var i := 0;
      while i < itemSize
        invariant i <= itemSize && f == old(f) + 1 && item[..i] == que[pointer..pointer + i]
      {
        item[i] := que[pointer + i];
        i := i + 1;
      }
      assert item[..] == item[..i];
    }
  }
}
