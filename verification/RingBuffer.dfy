/** The byte ring between a socket's reads and writes.

    The cursors are unsigned 64-bit counters that only grow and wrap; the buffer's size divides
    2^64, so a wrap does not move the cells.  One cell is always left free. */
module RingBuffers {
  import opened Numbers

  const TWO_64: nat := 0x1_0000_0000_0000_0000
  const TWO_32: nat := 0x1_0000_0000
  const TWO_31: nat := 0x8000_0000

  /** A segment handed to the kernel: the offset of its first cell, and its length. */
  datatype Iovec = Iovec(base: nat, len: nat)

  /** The bytes between the cursors: p - f in 64-bit arithmetic. */
  function Used(f: nat, p: nat): (u: nat)
    ensures u < TWO_64
  {
    (p - f) % TWO_64
  }

  /** Conversion of a 64-bit value to a 32-bit signed int. */
  function ToInt32(x: nat): int {
    var low := x % TWO_32;
    if low < TWO_31 then low else low - TWO_32
  }

  ghost predicate GoodSize(n: nat) {
    2 <= n <= TWO_31 && TWO_64 % n == 0
  }

  ghost predicate GoodCursors(n: nat, f: nat, p: nat) {
    GoodSize(n) && f < TWO_64 && p < TWO_64 && Used(f, p) <= n - 1
  }

  /** The cell of the `i`-th byte after cursor `c`. */
  function Cell(n: nat, c: nat, i: nat): nat
    requires n > 0
  {
    (c + i) % n
  }

  /** The blank segments, as the buffer computes them from the reduced cursors. */
  function BlankSegments(n: nat, f: nat, p: nat): seq<Iovec>
    requires n >= 2
  {
    var mf, mp := f % n, p % n;
    if mp < mf then [Iovec(mp, mf - mp - 1)]
    else if mf == 0 then [Iovec(mp, n - mp - 1)]
    else if mf == 1 then [Iovec(mp, n - mp)]
    else [Iovec(mp, n - mp), Iovec(0, mf - 1)]
  }

  function ExistSegments(n: nat, f: nat, p: nat): seq<Iovec>
    requires n >= 2
  {
    var mf, mp := f % n, p % n;
    if mf <= mp then [Iovec(mf, mp - mf)]
    else if mp == 0 then [Iovec(mf, n - mf)]
    else [Iovec(mf, n - mf), Iovec(0, mp)]
  }

  /** The cells of the segments, in the order in which the kernel walks them. */
  function Cells(segs: seq<Iovec>): seq<nat> {
    if segs == [] then [] else seq(segs[0].len, i requires 0 <= i => segs[0].base + i) + Cells(segs[1..])
  }

  // ---- arithmetic of the cursors ----

  lemma ModAdd(a: int, k: int, n: nat)
    requires n > 0
    ensures (a + k * n) % n == a % n
  {
    var q, r := a / n, a % n;
    assert a + k * n == (q + k) * n + r;
    DivModUnique(a + k * n, q + k, r, n);
  }

  /** A position modulo the size, by at most one subtraction. */
  lemma ModStep(c: nat, i: nat, n: nat)
    requires n > 0 && i <= n
    ensures Cell(n, c, i) == if c % n + i < n then c % n + i else c % n + i - n
  {
    var r := c % n;
    assert c + i == (r + i) + (c / n) * n;
    ModAdd(r + i, c / n, n);
    if r + i >= n {
      DivModUnique(r + i, 1, r + i - n, n);
    } else {
      DivModUnique(r + i, 0, r + i, n);
    }
  }

  /** A 64-bit wrap does not change the cell. */
  lemma WrapKeepsCell(c: nat, n: nat)
    requires GoodSize(n)
    ensures c % TWO_64 % n == c % n
  {
    var k := TWO_64 / n;
    assert TWO_64 == k * n;
    var w := c / TWO_64;
    assert c == c % TWO_64 + w * TWO_64;
    assert w * TWO_64 == (w * k) * n by {
      assert w * (k * n) == (w * k) * n;
    }
    ModAdd(c % TWO_64, w * k, n);
  }

  /** The write cursor is `Used` bytes after the read cursor. */
  lemma WriteCursor(f: nat, p: nat)
    requires f < TWO_64 && p < TWO_64
    ensures p == (f + Used(f, p)) % TWO_64
  {
    var u := Used(f, p);
    if p >= f {
      DivModUnique(p - f, 0, p - f, TWO_64);
      DivModUnique(p, 0, p, TWO_64);
    } else {
      DivModUnique(p - f, -1, p - f + TWO_64, TWO_64);
      DivModUnique(p + TWO_64, 1, p, TWO_64);
    }
  }

  lemma ReducedCursors(n: nat, f: nat, p: nat)
    requires GoodCursors(n, f, p)
    ensures var u := Used(f, p); p % n == if f % n + u < n then f % n + u else f % n + u - n
  {
    WriteCursor(f, p);
    WrapKeepsCell(f + Used(f, p), n);
    ModStep(f, Used(f, p), n);
  }

  /** Advancing the write cursor over blank cells. */
  lemma WriteAdvanced(n: nat, f: nat, p: nat, k: nat)
    requires GoodCursors(n, f, p) && k <= n - 1 - Used(f, p)
    ensures Used(f, (p + k) % TWO_64) == Used(f, p) + k
  {
    var p', w := (p + k) % TWO_64, (p + k) / TWO_64;
    var q := (p - f) / TWO_64;
    assert p' - f == (q - w) * TWO_64 + (Used(f, p) + k);
    DivModUnique(p' - f, q - w, Used(f, p) + k, TWO_64);
  }

  /** Advancing the read cursor over stored cells. */
  lemma ReadAdvanced(n: nat, f: nat, p: nat, k: nat)
    requires GoodCursors(n, f, p) && k <= Used(f, p)
    ensures Used((f + k) % TWO_64, p) == Used(f, p) - k
  {
    var f', w := (f + k) % TWO_64, (f + k) / TWO_64;
    var q := (p - f) / TWO_64;
    assert p - f' == (q + w) * TWO_64 + (Used(f, p) - k);
    DivModUnique(p - f', q + w, Used(f, p) - k, TWO_64);
  }

  /** The bytes left after the read cursor advances are where they were. */
  lemma RemainingCell(n: nat, f: nat, k: nat, i: nat)
    requires GoodSize(n) && k + i < n
    ensures Cell(n, (f + k) % TWO_64, i) == Cell(n, f, k + i)
  {
    WrapKeepsCell(f + k, n);
    ModStep(f, k, n);
    ModStep((f + k) % TWO_64, i, n);
    ModStep(f, k + i, n);
  }

  // ---- what the segments are ----

  lemma CellsOfOne(v: Iovec)
    ensures |Cells([v])| == v.len && forall i :: 0 <= i < v.len ==> Cells([v])[i] == v.base + i
  {
    assert [v][1..] == [];
  }

  lemma CellsOfTwo(v: Iovec, w: Iovec)
    ensures |Cells([v, w])| == v.len + w.len
    ensures forall i :: 0 <= i < v.len ==> Cells([v, w])[i] == v.base + i
    ensures forall i :: v.len <= i < v.len + w.len ==> Cells([v, w])[i] == w.base + i - v.len
  {
    assert [v, w][1..] == [w];
    CellsOfOne(w);
  }

  lemma CellsOf(segs: seq<Iovec>)
    requires 1 <= |segs| <= 2
    ensures |segs| == 1 ==> |Cells(segs)| == segs[0].len
    ensures |segs| == 2 ==> |Cells(segs)| == segs[0].len + segs[1].len
    ensures forall i :: 0 <= i < segs[0].len ==> i < |Cells(segs)| && Cells(segs)[i] == segs[0].base + i
    ensures |segs| == 2 ==> forall i :: segs[0].len <= i < |Cells(segs)| ==> Cells(segs)[i] == segs[1].base + i - segs[0].len
  {
    if |segs| == 1 {
      assert segs == [segs[0]];
      CellsOfOne(segs[0]);
    } else {
      assert segs == [segs[0], segs[1]];
      CellsOfTwo(segs[0], segs[1]);
    }
  }

  /** Read in order, the exist segments are the stored bytes, oldest first. */
  lemma ExistInOrder(n: nat, f: nat, p: nat)
    requires GoodCursors(n, f, p)
    ensures |Cells(ExistSegments(n, f, p))| == Used(f, p)
    ensures forall i :: 0 <= i < Used(f, p) ==> Cells(ExistSegments(n, f, p))[i] == Cell(n, f, i)
  {
    ReducedCursors(n, f, p);
    CellsOf(ExistSegments(n, f, p));
    forall i | 0 <= i < Used(f, p) ensures Cells(ExistSegments(n, f, p))[i] == Cell(n, f, i) {
      ModStep(f, i, n);
    }
  }

  /** Written in order, the blank segments continue the stored bytes. */
  lemma BlankInOrder(n: nat, f: nat, p: nat)
    requires GoodCursors(n, f, p)
    ensures |Cells(BlankSegments(n, f, p))| == n - 1 - Used(f, p)
    ensures forall i :: 0 <= i < n - 1 - Used(f, p) ==> Cells(BlankSegments(n, f, p))[i] == Cell(n, f, Used(f, p) + i)
  {
    ReducedCursors(n, f, p);
    CellsOf(BlankSegments(n, f, p));
    forall i | 0 <= i < n - 1 - Used(f, p) ensures Cells(BlankSegments(n, f, p))[i] == Cell(n, f, Used(f, p) + i) {
      ModStep(f, Used(f, p) + i, n);
    }
  }

  /** Different places after a cursor are different cells. */
  lemma CellsDiffer(n: nat, c: nat, i: nat, j: nat)
    requires n > 0 && i < j < n
    ensures Cell(n, c, i) != Cell(n, c, j)
  {
    ModStep(c, i, n);
    ModStep(c, j, n);
  }

  /** How many cells after the cursor a cell is. */
  function Place(n: nat, c: nat, x: nat): (k: nat)
    requires n > 0 && x < n
    ensures k < n && Cell(n, c, k) == x
  {
    var k := if x >= c % n then x - c % n else x - c % n + n;
    ModStep(c, k, n);
    k
  }

  /** A run of cells after a cursor holds the cells with those places. */
  lemma InRunOfCells(n: nat, c: nat, lo: nat, cells: seq<nat>, x: nat)
    requires 0 < n && x < n && lo + |cells| <= n
    requires forall i :: 0 <= i < |cells| ==> cells[i] == Cell(n, c, lo + i)
    ensures x in cells <==> lo <= Place(n, c, x) < lo + |cells|
  {
    var k := Place(n, c, x);
    if lo <= k < lo + |cells| {
      assert cells[k - lo] == x;
    }
    if x in cells {
      var i :| 0 <= i < |cells| && cells[i] == x;
      if k < lo + i {
        CellsDiffer(n, c, k, lo + i);
      } else if lo + i < k {
        CellsDiffer(n, c, lo + i, k);
      }
    }
  }

  /** The two kinds of segments share no cell, and together they are all cells but the one
      just before the read cursor. */
  lemma SegmentsPartition(n: nat, f: nat, p: nat, x: nat)
    requires GoodCursors(n, f, p) && x < n
    ensures !(x in Cells(ExistSegments(n, f, p)) && x in Cells(BlankSegments(n, f, p)))
    ensures x != Cell(n, f, n - 1) <==> x in Cells(ExistSegments(n, f, p)) || x in Cells(BlankSegments(n, f, p))
  {
    ExistInOrder(n, f, p);
    BlankInOrder(n, f, p);
    InRunOfCells(n, f, 0, Cells(ExistSegments(n, f, p)), x);
    InRunOfCells(n, f, Used(f, p), Cells(BlankSegments(n, f, p)), x);
    var k := Place(n, f, x);
    if k < n - 1 {
      CellsDiffer(n, f, k, n - 1);
    }
  }

  /** A side that has room or bytes has them in its first segment, so a call that offers only that
      segment never has length zero. */
  lemma FirstSegmentNonempty(n: nat, f: nat, p: nat)
    requires GoodCursors(n, f, p)
    ensures Used(f, p) > 0 <==> ExistSegments(n, f, p)[0].len > 0
    ensures Used(f, p) < n - 1 <==> BlankSegments(n, f, p)[0].len > 0
  {
    ReducedCursors(n, f, p);
  }

  /** A receive delivers bytes, none of them at end of stream. */
  datatype RecvResult = Received(bytes: seq<byte>) | RecvWouldBlock | RecvFailed

  /** End of stream or an error. */
  predicate RecvEnds(r: RecvResult) {
    r == RecvFailed || r == Received([])
  }

  /** A send accepts some of the bytes offered. */
  datatype SendResult = Accepted(n: nat) | SendWouldBlock | SendFailed

  function Min(a: nat, b: nat): nat {
    if a < b then a else b
  }

  // ---- the kernel walks the segments ----

  ghost predicate GoodCells(cells: seq<nat>, n: nat) {
    && (forall i :: 0 <= i < |cells| ==> cells[i] < n)
    && (forall i, j :: 0 <= i < j < |cells| ==> cells[i] != cells[j])
  }

  /** Writes the bytes into the cells. */
  method Scatter(a: array<byte>, cells: seq<nat>, bytes: seq<byte>)
    requires GoodCells(cells, a.Length) && |bytes| <= |cells|
    modifies a
    ensures Placed(a[..], cells, bytes)
    ensures forall j :: 0 <= j < a.Length && j !in cells ==> a[j] == old(a[j])
  {
    var i := 0;
    while i < |bytes|
      invariant i <= |bytes| && Placed(a[..], cells, bytes[..i])
      invariant forall j :: 0 <= j < a.Length && j !in cells ==> a[j] == old(a[j])
    {
      a[cells[i]] := bytes[i];
      i := i + 1;
    }
    assert bytes[..i] == bytes;
  }

  /** Reads the first `k` cells. */
  method Gather(a: array<byte>, cells: seq<nat>, k: nat) returns (bytes: seq<byte>)
    requires GoodCells(cells, a.Length) && k <= |cells|
    ensures |bytes| == k && forall i :: 0 <= i < k ==> bytes[i] == a[cells[i]]
  {
    bytes := [];
    while |bytes| < k
      invariant |bytes| <= k && forall i :: 0 <= i < |bytes| ==> bytes[i] == a[cells[i]]
    {
      bytes := bytes + [a[cells[|bytes|]]];
    }
  }

  lemma ExistCells(n: nat, f: nat, p: nat)
    requires GoodCursors(n, f, p)
    ensures GoodCells(Cells(ExistSegments(n, f, p)), n)
  {
    var cells := Cells(ExistSegments(n, f, p));
    ExistInOrder(n, f, p);
    forall i, j | 0 <= i < j < |cells| ensures cells[i] != cells[j] {
      CellsDiffer(n, f, i, j);
    }
  }

  lemma BlankCells(n: nat, f: nat, p: nat)
    requires GoodCursors(n, f, p)
    ensures GoodCells(Cells(BlankSegments(n, f, p)), n)
  {
    var cells, u := Cells(BlankSegments(n, f, p)), Used(f, p);
    BlankInOrder(n, f, p);
    forall i, j | 0 <= i < j < |cells| ensures cells[i] != cells[j] {
      CellsDiffer(n, f, u + i, u + j);
    }
  }

  /** The first segment's cells come first. */
  lemma FirstCells(segs: seq<Iovec>)
    requires segs != []
    ensures Cells(segs[..1]) <= Cells(segs) && |Cells(segs[..1])| == segs[0].len
  {
    CellsOfOne(segs[0]);
    assert segs[..1] == [segs[0]];
    assert Cells(segs)[..segs[0].len] == Cells([segs[0]]);
  }

  // ---- the buffer ----

  class RingBuffer {
    const n: nat
    const buf: array<byte>
    var f: nat
    var p: nat

    ghost predicate Valid()
      reads this
    {
      GoodCursors(n, f, p) && buf.Length == n
    }

    /** The bytes stored, oldest first. */
    ghost function Contents(): (s: seq<byte>)
      requires Valid()
      reads this, buf
      ensures |s| == Used(f, p)
    {
      seq(Used(f, p), i requires 0 <= i && Valid() reads this, buf => buf[Cell(n, f, i)])
    }

    constructor (size: nat)
      requires GoodSize(size)
      ensures Valid() && n == size && fresh(buf) && Contents() == []
    {
      n := size;
      f, p := 0, 0;
      buf := new byte[size];
    }

    method GetBlankSize() returns (size: int)
      requires Valid()
      ensures size == n - 1 - |Contents()|
    {
      size := ToInt32((n - 1 - (p - f)) % TWO_64);
      DivModUnique(n - 1 - (p - f), if p >= f then 0 else 1, n - 1 - Used(f, p), TWO_64) by {
        WriteCursor(f, p);
      }
    }

    method GetExistSize() returns (size: int)
      requires Valid()
      ensures size == |Contents()|
    {
      size := ToInt32((p - f) % TWO_64);
    }

    method GetBlankIovec(iov: array<Iovec>) returns (iovLen: nat)
      requires Valid() && iov.Length == 2
      modifies iov
      ensures 1 <= iovLen <= 2 && iov[..iovLen] == BlankSegments(n, f, p)
    {
      var mf, mp := f % n, p % n;
      if mp < mf {
        iov[0] := Iovec(mp, mf - mp - 1);
        iovLen := 1;
      } else {
        if mf == 0 {
          iov[0] := Iovec(mp, n - mp - 1);
          iovLen := 1;
        } else if mf == 1 {
          iov[0] := Iovec(mp, n - mp);
          iovLen := 1;
        } else {
          iov[0] := Iovec(mp, n - mp);
          iov[1] := Iovec(0, mf - 1);
          iovLen := 2;
        }
      }
    }

    method GetExistIovec(iov: array<Iovec>) returns (iovLen: nat)
      requires Valid() && iov.Length == 2
      modifies iov
      ensures 1 <= iovLen <= 2 && iov[..iovLen] == ExistSegments(n, f, p)
    {
      var mf, mp := f % n, p % n;
      if mf <= mp {
        iov[0] := Iovec(mf, mp - mf);
        iovLen := 1;
      } else {
        if mp == 0 {
          iov[0] := Iovec(mf, n - mf);
          iovLen := 1;
        } else {
          iov[0] := Iovec(mf, n - mf);
          iov[1] := Iovec(0, mp);
          iovLen := 2;
        }
      }
    }

    /** The kernel writes to blank cells only, so the stored bytes stay as they are. */
    method Deliver(cells: seq<nat>, bytes: seq<byte>)
      requires Valid() && GoodCells(cells, n) && |bytes| <= |cells|
      requires cells <= Cells(BlankSegments(n, f, p))
      modifies buf
      ensures Contents() == old(Contents())
      ensures Placed(buf[..], Cells(BlankSegments(n, f, p)), bytes)
    {
      Scatter(buf, cells, bytes);
      ExistInOrder(n, f, p);
      forall i | 0 <= i < Used(f, p) ensures Cell(n, f, i) !in cells {
        var c := Cell(n, f, i);
        SegmentsPartition(n, f, p, c);
        assert Cells(ExistSegments(n, f, p))[i] == c;
      }
    }

    /** The first `v` stored bytes have been sent. */
    method AddBlank(v: int)
      requires Valid() && 0 <= v <= |Contents()|
      modifies this`f
      ensures Valid() && Contents() == old(Contents())[v..] && f == (old(f) + v) % TWO_64
    {
      ReadAdvanced(n, f, p, v);
      ghost var f0 := f;
      f := (f + v) % TWO_64;
      forall i | 0 <= i < Used(f, p) ensures Cell(n, f, i) == Cell(n, f0, v + i) {
        RemainingCell(n, f0, v, i);
      }
    }

    /** `v` bytes have been written to the blank cells, in order. */
    method AddExist(v: int, ghost bytes: seq<byte>)
      requires Valid() && 0 <= v == |bytes|
      requires Placed(buf[..], Cells(BlankSegments(n, f, p)), bytes)
      modifies this`p
      ensures Valid() && Contents() == old(Contents()) + bytes && p == (old(p) + v) % TWO_64
    {
      WrittenAfter(n, f, p, buf[..], bytes);
      WriteAdvanced(n, f, p, v);
      p := (p + v) % TWO_64;
    }
  }

  /** The bytes are in the cells, in order. */
  ghost predicate Placed(b: seq<byte>, cells: seq<nat>, bytes: seq<byte>) {
    |bytes| <= |cells| && forall i :: 0 <= i < |bytes| ==> cells[i] < |b| && b[cells[i]] == bytes[i]
  }

  lemma WrittenAfter(n: nat, f: nat, p: nat, b: seq<byte>, bytes: seq<byte>)
    requires GoodCursors(n, f, p) && |b| == n && Placed(b, Cells(BlankSegments(n, f, p)), bytes)
    ensures |bytes| <= n - 1 - Used(f, p)
    ensures forall i :: Used(f, p) <= i < Used(f, p) + |bytes| ==> b[Cell(n, f, i)] == bytes[i - Used(f, p)]
  {
    BlankInOrder(n, f, p);
    forall i | Used(f, p) <= i < Used(f, p) + |bytes| ensures b[Cell(n, f, i)] == bytes[i - Used(f, p)] {
      assert Cells(BlankSegments(n, f, p))[i - Used(f, p)] == Cell(n, f, i);
    }
  }
}
