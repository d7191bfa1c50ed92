/** The internet checksum of an IPv4 header by wide-word folding, against the 16-bit one's
    complement sum of section 1 of RFC 1071.  Words are loaded as a little-endian host does. */
module Checksum {
  import opened Numbers

  const TWO_16: nat := 0x1_0000
  const TWO_32: nat := 0x1_0000_0000
  const TWO_64: nat := 0x1_0000_0000_0000_0000
  const MAX_16: nat := 0xFFFF

  // ---- the reference ----

  function Word(first: byte, second: byte, bigEndian: bool): (w: nat)
    ensures w <= MAX_16
  {
    if bigEndian then 256 * first + second else first + 256 * second
  }

  /** 16-bit addition with end-around carry. */
  function OnesAdd(a: nat, b: nat): (s: nat)
    requires a <= MAX_16 && b <= MAX_16
    ensures s <= MAX_16
  {
    if a + b >= TWO_16 then a + b - MAX_16 else a + b
  }

  /** The one's complement sum of the 16-bit words; a last odd byte is padded with a zero. */
  function OnesSum(b: seq<byte>, bigEndian: bool): (s: nat)
    ensures s <= MAX_16
  {
    if b == [] then 0
    else if |b| == 1 then Word(b[0], 0, bigEndian)
    else OnesAdd(Word(b[0], b[1], bigEndian), OnesSum(b[2..], bigEndian))
  }

  // ---- the fast form ----

  /** A little-endian load. */
  function Load(b: seq<byte>): nat {
    if b == [] then 0 else b[0] + 256 * Load(b[1..])
  }

  /** (x >> half) | (x << half), for a word of two halves of `h` values each. */
  function SwapHalves(x: nat, h: nat): nat
    requires h > 0
  {
    x / h + (x % h) * h
  }

  /** Addition of two halves with end-around carry. */
  function AddHalves(hi: nat, lo: nat, h: nat): int {
    if hi + lo >= h then hi + lo - (h - 1) else hi + lo
  }

  /** What the loop adds, before any reduction. */
  function Sum32(b: seq<byte>): nat
    requires |b| % 4 == 0
  {
    if b == [] then 0 else Load(b[..4]) + Sum32(b[4..])
  }

  /** The accumulator after the words before `p`, if it could hold every value. */
  function Partial(header: seq<byte>, p: nat): int
    requires 16 <= p <= |header| && p % 4 == 0
  {
    AddHalves(Load(header[8..16]), Load(header[..8]), TWO_64) + Sum32(header[16..p])
  }

  /** The exact value the 64-bit accumulator would have to hold. */
  function Accumulated(header: seq<byte>): int
    requires |header| >= 20 && |header| % 4 == 0
  {
    AddHalves(Load(header[8..16]), Load(header[..8]), TWO_64) + Sum32(header[16..])
  }

  // ---- congruence modulo 0xFFFF, with the quotient named ----

  predicate Apart(a: int, b: int, k: int) {
    a - b == k * MAX_16
  }

  lemma Monotone(a: nat, b: nat, h: nat)
    requires a <= b
    ensures a * h <= b * h
  {
  }

  lemma UpperHalf(x: nat, h: nat)
    requires h > 0 && x < h * h
    ensures x / h < h
  {
    if x / h >= h {
      Monotone(h, x / h, h);
    }
  }

  /** The upper half of t copies of the word 1 0 plus t copies of 0 1. */
  lemma UpperOfSum(t: nat, h: nat)
    requires h >= 2 && t <= 2 * h - 2
    ensures (t * h + t) % (h * h) / h == if t >= h then t - (h - 1) else t
  {
    var r := if t < h then t else t - h;
    Monotone(r + 1, h, h);
    assert (r + 1) * h == r * h + h;
    if t < h {
      UpperUnique(t * h + t, 0, t, t, h);
    } else {
      assert t * h == h * h + r * h;
      UpperUnique(t * h + t, 1, r + 1, r, h);
    }
  }

  /** The digits of a number of three digits in base h. */
  lemma UpperUnique(a: nat, q: nat, u: nat, l: nat, h: nat)
    requires h > 0 && a == q * (h * h) + (u * h + l) && u < h && l < h
    ensures a % (h * h) / h == u
  {
    Monotone(u + 1, h, h);
    assert (u + 1) * h == u * h + h;
    DivModUnique(a, q, u * h + l, h * h);
    DivModUnique(u * h + l, u, l, h);
  }

  /** The upper half of x plus its halves swapped, in the word's own arithmetic, is the sum of its
      halves with end-around carry. */
  lemma FoldAdds(x: nat, h: nat)
    requires h >= 2 && x < h * h
    ensures (x + SwapHalves(x, h)) % (h * h) / h == AddHalves(x / h, x % h, h)
  {
    UpperHalf(x, h);
    var t := x / h + x % h;
    assert x + SwapHalves(x, h) == t * h + t;
    UpperOfSum(t, h);
  }

  /** End-around addition keeps a two-digit value modulo 0xFFFF, and keeps whether it is zero. */
  lemma AddHalvesKeeps(hi: nat, lo: nat, h: nat, q: nat) returns (k: int)
    requires h >= 2 && hi < h && lo < h && h - 1 == q * MAX_16
    ensures 0 <= AddHalves(hi, lo, h) < h && Apart(hi * h + lo, AddHalves(hi, lo, h), k)
    ensures AddHalves(hi, lo, h) == 0 <==> hi == 0 && lo == 0
  {
    assert hi * h == hi * (h - 1) + hi;
    assert hi * (h - 1) == hi * q * MAX_16;
    k := if hi + lo >= h then hi * q + q else hi * q;
  }

  // ---- sums of words ----

  function Sum16(b: seq<byte>, bigEndian: bool): nat {
    if b == [] then 0
    else if |b| == 1 then Word(b[0], 0, bigEndian)
    else Word(b[0], b[1], bigEndian) + Sum16(b[2..], bigEndian)
  }

  /** The one's complement sum is the plain sum modulo 0xFFFF, with 0xFFFF for a positive multiple. */
  lemma {:induction false} OnesSumIsSum(b: seq<byte>, bigEndian: bool) returns (k: int)
    ensures Apart(Sum16(b, bigEndian), OnesSum(b, bigEndian), k)
    ensures OnesSum(b, bigEndian) == 0 <==> Sum16(b, bigEndian) == 0
  {
    k := 0;
    if |b| > 1 {
      k := OnesSumIsSum(b[2..], bigEndian);
      if Word(b[0], b[1], bigEndian) + OnesSum(b[2..], bigEndian) >= TWO_16 {
        k := k + 1;
      }
    }
  }

  lemma {:induction false} Sum16Append(a: seq<byte>, b: seq<byte>, bigEndian: bool)
    requires |a| % 2 == 0
    ensures Sum16(a + b, bigEndian) == Sum16(a, bigEndian) + Sum16(b, bigEndian)
  {
    if a == [] {
      assert a + b == b;
    } else {
      assert (a + b)[2..] == a[2..] + b;
      Sum16Append(a[2..], b, bigEndian);
    }
  }

  /** A wide load is congruent to the sum of its 16-bit words. */
  lemma {:induction false} LoadIsSum(b: seq<byte>) returns (k: int)
    ensures Apart(Load(b), Sum16(b, false), k) && (Load(b) == 0 <==> Sum16(b, false) == 0)
  {
    k := 0;
    if |b| == 1 {
      assert b[1..] == [];
    } else if b != [] {
      assert b[1..][1..] == b[2..];
      assert Load(b) == Word(b[0], b[1], false) + TWO_16 * Load(b[2..]);
      k := LoadIsSum(b[2..]);
      k := k + Load(b[2..]);
    }
  }

  lemma {:induction false} Sum32IsSum(b: seq<byte>) returns (k: int)
    requires |b| % 4 == 0
    ensures Apart(Sum32(b), Sum16(b, false), k) && (Sum32(b) == 0 <==> Sum16(b, false) == 0)
  {
    k := 0;
    if b != [] {
      k := Sum32IsSum(b[4..]);
      k := OneMoreWord(b[..4], b[4..], k);
      assert b == b[..4] + b[4..];
    }
  }

  lemma OneMoreWord(first: seq<byte>, rest: seq<byte>, k: int) returns (k': int)
    requires |first| == 4 && |rest| % 4 == 0
    requires Apart(Sum32(rest), Sum16(rest, false), k) && (Sum32(rest) == 0 <==> Sum16(rest, false) == 0)
    ensures Apart(Load(first) + Sum32(rest), Sum16(first + rest, false), k')
    ensures Load(first) + Sum32(rest) == 0 <==> Sum16(first + rest, false) == 0
  {
    var j := LoadIsSum(first);
    Sum16Append(first, rest, false);
    k' := AddApart(Load(first), Sum16(first, false), j, Sum32(rest), Sum16(rest, false), k);
  }

  lemma AddApart(a: nat, b: nat, j: int, c: nat, d: nat, k: int) returns (l: int)
    requires Apart(a, b, j) && (a == 0 <==> b == 0) && Apart(c, d, k) && (c == 0 <==> d == 0)
    ensures Apart(a + c, b + d, l) && (a + c == 0 <==> b + d == 0)
  {
    l := j + k;
  }

  function Power(n: nat): nat {
    if n == 0 then 1 else 256 * Power(n - 1)
  }

  lemma {:induction false} LoadLess(b: seq<byte>)
    ensures Load(b) < Power(|b|)
  {
    if b != [] {
      LoadLess(b[1..]);
    }
  }

  lemma LoadBound(b: seq<byte>)
    ensures |b| == 4 ==> Load(b) < TWO_32
    ensures |b| == 8 ==> Load(b) < TWO_64
  {
    LoadLess(b);
    assert Power(4) == TWO_32;
    assert |b| == 8 ==> Power(8) == TWO_64;
  }

  /** The accumulated value is congruent to the sum of all the header's words. */
  lemma AccumulatedIsSum(header: seq<byte>) returns (k: int)
    requires |header| >= 20 && |header| % 4 == 0
    ensures Apart(Accumulated(header), Sum16(header, false), k)
    ensures Accumulated(header) == 0 <==> Sum16(header, false) == 0
  {
    var low, high, rest := header[..8], header[8..16], header[16..];
    LoadBound(low);
    LoadBound(high);
    var i := AddHalvesKeeps(Load(high), Load(low), TWO_64, 0x1_0001_0001_0001);
    var j := LoadIsSum(low);
    var l := LoadIsSum(high);
    var m := Sum32IsSum(rest);
    assert header == low + (high + rest);
    Sum16Append(low, high + rest, false);
    Sum16Append(high, rest, false);
    k := Combine(Load(high), Load(low), AddHalves(Load(high), Load(low), TWO_64), Sum32(rest),
                 Sum16(low, false), Sum16(high, false), Sum16(rest, false), i, j, l, m);
  }

  lemma Combine(hi: nat, lo: nat, folded: int, words: nat, sLo: nat, sHi: nat, sRest: nat, i: int, j: int, l: int, m: int)
    returns (k: int)
    requires Apart(hi * TWO_64 + lo, folded, i) && Apart(lo, sLo, j) && Apart(hi, sHi, l) && Apart(words, sRest, m)
    ensures Apart(folded + words, sLo + sHi + sRest, k)
  {
    k := j + l + m - i + 0x1_0001_0001_0001 * hi;
  }

  lemma Sum32Bound(b: seq<byte>)
    requires |b| % 4 == 0
    ensures Sum32(b) <= |b| / 4 * (TWO_32 - 1)
  {
    if b != [] {
      LoadBound(b[..4]);
      Sum32Bound(b[4..]);
    }
  }

  /** The accumulator can wrap once at most. */
  lemma WrapsOnce(header: seq<byte>)
    requires |header| % 4 == 0 && 5 <= |header| / 4 < TWO_32
    ensures 0 <= Accumulated(header) < 2 * TWO_64
  {
    LoadBound(header[..8]);
    LoadBound(header[8..16]);
    var k := AddHalvesKeeps(Load(header[8..16]), Load(header[..8]), TWO_64, 0x1_0001_0001_0001);
    Sum32Bound(header[16..]);
    assert |header[16..]| / 4 <= TWO_32 - 5;
    assert |header[16..]| / 4 * (TWO_32 - 1) <= (TWO_32 - 5) * (TWO_32 - 1);
  }

  lemma AccumulatedIsOnesSum(header: seq<byte>) returns (k: int)
    requires |header| % 4 == 0 && 5 <= |header| / 4 < TWO_32
    ensures 0 <= Accumulated(header) < 2 * TWO_64 && Apart(Accumulated(header), OnesSum(header, false), k)
    ensures OnesSum(header, false) == 0 <==> Accumulated(header) == 0
  {
    WrapsOnce(header);
    var i := AccumulatedIsSum(header);
    k := OnesSumIsSum(header, false);
    k := i + k;
  }

  // ---- the two forms agree ----

  /** The 16-bit value congruent to `acc` modulo 0xFFFF, with 0xFFFF for a positive multiple. */
  function Reduced(acc: nat): (r: nat)
    ensures r <= MAX_16
  {
    if acc == 0 then 0 else (acc - 1) % MAX_16 + 1
  }

  lemma ReducedIs(acc: nat, r: nat, i: int)
    requires r <= MAX_16 && Apart(acc, r, i) && (r == 0 <==> acc == 0)
    ensures r == Reduced(acc)
  {
    if acc > 0 {
      DivModUnique(acc - 1, i, r - 1, MAX_16);
    }
  }

  lemma ReducedApart(acc: nat) returns (i: int)
    ensures Apart(acc, Reduced(acc), i) && (Reduced(acc) == 0 <==> acc == 0)
  {
    i := if acc == 0 then 0 else (acc - 1) / MAX_16;
  }

  /** The reduced sum `r` of an accumulator that was itself reduced to 64 bits, against the sum `s` of
      the words: they agree, or `r` lacks the carry that a wrap has lost. */
  lemma CarryLost(acc: nat, sum: nat, r: nat, s: nat, i: int, k: int)
    requires acc < 2 * TWO_64 && sum == (if acc < TWO_64 then acc else acc - TWO_64)
    requires r <= MAX_16 && Apart(sum, r, i) && (r == 0 <==> sum == 0)
    requires s <= MAX_16 && Apart(acc, s, k) && (s == 0 <==> acc == 0)
    ensures s == if acc < TWO_64 then r else OnesAdd(r, 1)
  {
    if acc < TWO_64 {
      assert Apart(r, s, k - i);
    } else {
      assert Apart(r + 1, s, k - i - 0x1_0001_0001_0001);
    }
  }

  /** `c` complements the header's sum, if the accumulation does not wrap; otherwise it complements
      a sum that lacks one carry. */
  ghost predicate FastResult(header: seq<byte>, c: int)
    requires |header| >= 20 && |header| % 4 == 0
  {
    && 0 <= c <= MAX_16
    && OnesSum(header, false) == if Accumulated(header) < TWO_64 then MAX_16 - c else OnesAdd(MAX_16 - c, 1)
  }

  lemma FoldedResult(header: seq<byte>, sum: nat)
    requires |header| % 4 == 0 && 5 <= |header| / 4 < TWO_32
    requires sum == (if Accumulated(header) < TWO_64 then Accumulated(header) else Accumulated(header) - TWO_64)
    ensures FastResult(header, MAX_16 - Reduced(sum))
  {
    var k := AccumulatedIsOnesSum(header);
    var i := ReducedApart(sum);
    CarryLost(Accumulated(header), sum, Reduced(sum), OnesSum(header, false), i, k);
  }

  /** So a result of the fast form is the checksum exactly when its 64-bit accumulation does not
      wrap. */
  lemma FastFormIsChecksum(header: seq<byte>, c: int)
    requires |header| >= 20 && |header| % 4 == 0 && FastResult(header, c)
    ensures c == MAX_16 - OnesSum(header, false) <==> Accumulated(header) < TWO_64
  {
  }

  /** Swapping the bytes of every word swaps the bytes of the sum (section 2(B) of RFC 1071), so
      the checksum stored in host order is the one a big-endian reader computes. */
  lemma ByteOrderIndependent(b: seq<byte>)
    ensures OnesSum(b, true) == SwapBytes(OnesSum(b, false))
  {
    var i := OnesSumIsSum(b, true);
    var j := OnesSumIsSum(b, false);
    var k := SwappedSum(b);
    SwappedIsEqual(OnesSum(b, false), OnesSum(b, true), k + 256 * j - i);
  }

  lemma SwappedIsEqual(le: nat, be: nat, k: int)
    requires le <= MAX_16 && be <= MAX_16 && Apart(be, 256 * le, k) && (le == 0 <==> be == 0)
    ensures be == SwapBytes(le)
  {
    assert Apart(256 * le, SwapBytes(le), le / 256);
    assert Apart(be, SwapBytes(le), k + le / 256);
  }

  function SwapBytes(x: nat): (y: nat)
    requires x <= MAX_16
    ensures y <= MAX_16
  {
    x % 256 * 256 + x / 256
  }

  lemma {:induction false} SwappedSum(b: seq<byte>) returns (k: int)
    ensures Apart(Sum16(b, true), 256 * Sum16(b, false), k) && (Sum16(b, true) == 0 <==> Sum16(b, false) == 0)
  {
    k := 0;
    if |b| > 1 {
      k := SwappedSum(b[2..]);
      k := k - b[1];
    }
  }

  // ---- the program ----

  lemma PartialNext(header: seq<byte>, p: nat)
    requires 16 <= p && p + 4 <= |header| && p % 4 == 0
    ensures Partial(header, p + 4) == Partial(header, p) + Load(header[p..p + 4])
    ensures Load(header[p..p + 4]) < TWO_32
  {
    assert header[16..p] + header[p..p + 4] == header[16..p + 4];
    Sum32Snoc(header[16..p], header[p..p + 4]);
    LoadBound(header[p..p + 4]);
  }

  lemma {:induction false} Sum32Snoc(a: seq<byte>, w: seq<byte>)
    requires |a| % 4 == 0 && |w| == 4
    ensures Sum32(a + w) == Sum32(a) + Load(w)
  {
    if a == [] {
      assert a + w == w && w[..4] == w;
    } else {
      assert (a + w)[..4] == a[..4] && (a + w)[4..] == a[4..] + w;
      Sum32Snoc(a[4..], w);
    }
  }

  lemma SameSlice(a: seq<byte>, n: nat, p: nat)
    requires p + 4 <= n <= |a|
    ensures a[..n][p..p + 4] == a[p..p + 4]
  {
  }

  lemma Wrapped(x: nat)
    requires x < 2 * TWO_64
    ensures x % TWO_64 == if x < TWO_64 then x else x - TWO_64
  {
  }

  /** The 128-bit load and the first fold. */
  method FirstFold(iph: array<byte>) returns (sum: nat)
    requires iph.Length >= 20
    ensures sum == AddHalves(Load(iph[8..16]), Load(iph[..8]), TWO_64) < TWO_64
  {
    var tmp := Load(iph[..16]);
    LoadHalves(iph[..8], iph[8..16]);
    assert iph[..16] == iph[..8] + iph[8..16];
    LoadBound(iph[..8]);
    LoadBound(iph[8..16]);
    ghost var k := AddHalvesKeeps(Load(iph[8..16]), Load(iph[..8]), TWO_64, 0x1_0001_0001_0001);
    FoldAdds(tmp, TWO_64);
    tmp := (tmp + SwapHalves(tmp, TWO_64)) % (TWO_64 * TWO_64);
    sum := tmp / TWO_64;
  }

  lemma LoadHalves(low: seq<byte>, high: seq<byte>)
    requires |low| == 8 && |high| == 8
    ensures Load(low + high) == Load(low) + TWO_64 * Load(high) < TWO_64 * TWO_64
    ensures Load(low + high) / TWO_64 == Load(high) && Load(low + high) % TWO_64 == Load(low)
  {
    LoadAppend(low, high);
    LoadBound(low);
    LoadBound(high);
    assert Power(4) == TWO_32;
    assert Power(8) == TWO_64;
    DivModUnique(Load(low + high), Load(high), Load(low), TWO_64);
  }

  method IpFastCsum(iph: array<byte>, ihl: nat) returns (csum: nat)
    requires 5 <= ihl < TWO_32 && 4 * ihl <= iph.Length
    ensures FastResult(iph[..4 * ihl], csum)
  {
    ghost var header := iph[..4 * ihl];
    var sum := FirstFold(iph);
    assert iph[..8] == header[..8] && iph[8..16] == header[8..16] && header[16..16] == [];
    var p, n := 16, ihl - 4;
    ghost var lost := 0;
    while true
      invariant 1 <= n && p == 4 * (ihl - n) && 16 <= p < 4 * ihl
      invariant 0 <= sum < TWO_64 && Partial(header, p) == sum + lost
      invariant lost == 0 || lost == TWO_64 || lost >= 2 * TWO_64
      decreases n
    {
      PartialNext(header, p);
      SameSlice(iph[..], 4 * ihl, p);
      assert iph[..][p..p + 4] == iph[p..p + 4] && iph[..][..4 * ihl] == header;
      var word := Load(iph[p..p + 4]);
      Wrapped(sum + word);
      lost := if sum + word >= TWO_64 then lost + TWO_64 else lost;
      sum := (sum + word) % TWO_64;
      p := p + 4;
      n := n - 1;
      if n == 0 {
        break;
      }
    }
    assert header[16..p] == header[16..];
    WrapsOnce(header);
    FoldedResult(header, sum);
    csum := LastFolds(sum);
  }

  /** The 64-bit fold and csum_fold. */
  method LastFolds(acc: nat) returns (csum: nat)
    requires acc < TWO_64
    ensures csum == MAX_16 - Reduced(acc)
  {
    FoldAdds(acc, TWO_32);
    ghost var i := AddHalvesKeeps(acc / TWO_32, acc % TWO_32, TWO_32, 0x1_0001);
    var sum := (acc + SwapHalves(acc, TWO_32)) % TWO_64;
    csum := CsumFold(sum / TWO_32);
    ghost var j := ReducedApart(sum / TWO_32);
    ReducedIs(acc, MAX_16 - csum, i + j);
  }

  method CsumFold(csum: nat) returns (folded: nat)
    requires csum < TWO_32
    ensures folded == MAX_16 - Reduced(csum)
  {
    FoldAdds(csum, TWO_16);
    ghost var i := AddHalvesKeeps(csum / TWO_16, csum % TWO_16, TWO_16, 1);
    var sum := (csum + SwapHalves(csum, TWO_16)) % TWO_32;
    folded := MAX_16 - sum / TWO_16;
    ReducedIs(csum, sum / TWO_16, i);
  }

  /** The header with a given checksum field. */
  function WithCheck(header: seq<byte>, check: nat): (h: seq<byte>)
    requires |header| >= 20 && check <= MAX_16
    ensures |h| == |header|
  {
    header[10 := check % 256][11 := check / 256]
  }

  lemma CheckAdds(header: seq<byte>, check: nat)
    requires |header| >= 20 && check <= MAX_16
    ensures Sum16(WithCheck(header, check), false) == Sum16(WithCheck(header, 0), false) + check
  {
    var h, h0 := WithCheck(header, check), WithCheck(header, 0);
    assert h == header[..10] + [check % 256, check / 256] + header[12..];
    assert h0 == header[..10] + [0, 0] + header[12..];
    Sum16Append(header[..10], [check % 256, check / 256], false);
    Sum16Append(header[..10] + [check % 256, check / 256], header[12..], false);
    Sum16Append(header[..10], [0, 0], false);
    Sum16Append(header[..10] + [0, 0], header[12..], false);
    assert [check % 256, check / 256][2..] == [] && [0 as byte, 0][2..] == [];
  }

  /** The header then sums to 0xFFFF in either byte order, exactly when the accumulation over the
      header with a zero checksum does not wrap. */
  lemma CheckedHeader(header: seq<byte>, check: nat)
    requires |header| % 4 == 0 && |header| >= 20 && check <= MAX_16
    requires FastResult(WithCheck(header, 0), check)
    ensures OnesSum(WithCheck(header, check), false) == MAX_16 <==> Accumulated(WithCheck(header, 0)) < TWO_64
    ensures OnesSum(WithCheck(header, check), true) == MAX_16 <==> Accumulated(WithCheck(header, 0)) < TWO_64
  {
    FullInBothOrders(WithCheck(header, check));
    CheckedInHostOrder(header, check, Accumulated(WithCheck(header, 0)) < TWO_64);
  }

  lemma FullInBothOrders(h: seq<byte>)
    ensures OnesSum(h, true) == MAX_16 <==> OnesSum(h, false) == MAX_16
  {
    ByteOrderIndependent(h);
  }

  lemma CheckedInHostOrder(header: seq<byte>, check: nat, ok: bool)
    requires |header| % 4 == 0 && |header| >= 20 && check <= MAX_16
    requires OnesSum(WithCheck(header, 0), false) == if ok then MAX_16 - check else OnesAdd(MAX_16 - check, 1)
    ensures OnesSum(WithCheck(header, check), false) == MAX_16 <==> ok
  {
    var zeroed, h := WithCheck(header, 0), WithCheck(header, check);
    var k := OnesSumIsSum(zeroed, false);
    var l := OnesSumIsSum(h, false);
    CheckAdds(header, check);
    Completed(ok, check, OnesSum(zeroed, false), Sum16(zeroed, false), OnesSum(h, false), k, l);
  }

  lemma Completed(ok: bool, check: nat, s: nat, s16: nat, sum: nat, k: int, l: int)
    requires check <= MAX_16 && s <= MAX_16 && sum <= MAX_16 && (s == 0 <==> s16 == 0) && (sum == 0 <==> s16 + check == 0)
    requires s == if ok then MAX_16 - check else OnesAdd(MAX_16 - check, 1)
    requires Apart(s16, s, k) && Apart(s16 + check, sum, l)
    ensures sum == MAX_16 <==> ok
  {
    if ok {
      assert Apart(sum, MAX_16, k - l);
    } else {
      assert Apart(sum, s + check, k - l);
    }
  }

  /** `ihl` is the low half of the first byte. */
  method IpSendCheck(iph: array<byte>)
    requires iph.Length >= 20 && 5 <= iph[0] % 16 && 4 * (iph[0] % 16) <= iph.Length
    modifies iph
    ensures forall i :: 0 <= i < iph.Length && i != 10 && i != 11 ==> iph[i] == old(iph[i])
    ensures var n := 4 * old(iph[0] % 16); var zeroed := WithCheck(old(iph[..n]), 0);
      && (OnesSum(iph[..n], false) == MAX_16 <==> Accumulated(zeroed) < TWO_64)
      && (OnesSum(iph[..n], true) == MAX_16 <==> Accumulated(zeroed) < TWO_64)
  {
    ghost var n := 4 * (iph[0] % 16);
    ghost var header := iph[..n];
    iph[10] := 0;
    iph[11] := 0;
    assert iph[..n] == WithCheck(header, 0);
    var check := IpFastCsum(iph, iph[0] % 16);
    iph[10] := check % 256;
    iph[11] := check / 256;
    assert iph[..n] == WithCheck(header, check);
    CheckedHeader(header, check);
  }

  const LOW_BYTES: seq<byte> := [0x45, 0, 0xFF, 0xFF, 0, 0, 0, 0]
  const HIGH_BYTES: seq<byte> := [0xBA, 0xFF, 0, 0, 0xFF, 0xFF, 0xFF, 0xFF]
  const LAST_BYTES: seq<byte> := [1, 0, 0, 0]

  lemma WrappingParts(header: seq<byte>)
    requires header == LOW_BYTES + HIGH_BYTES + LAST_BYTES
    ensures |header| == 20 && header == WithCheck(header, 0) && header[0] == 0x45
    ensures header[..8] == LOW_BYTES && header[8..16] == HIGH_BYTES && header[16..] == LAST_BYTES
  {
  }

  /** A header of 20 bytes, its checksum field zero, on which the accumulation wraps: so no result of
      the fast form is its checksum. */
  lemma WrappingHeader() returns (header: seq<byte>)
    ensures |header| == 20 && header == WithCheck(header, 0) && header[0] == 0x45
    ensures Accumulated(header) == TWO_64
    ensures forall c {:trigger FastResult(header, c)} :: FastResult(header, c) ==> c != MAX_16 - OnesSum(header, false)
  {
    header := LOW_BYTES + HIGH_BYTES + LAST_BYTES;
    WrappingParts(header);
    LowAndHigh();
    OneWord(header);
  }

  lemma OneWord(header: seq<byte>)
    requires |header| == 20
    ensures Accumulated(header) == AddHalves(Load(header[8..16]), Load(header[..8]), TWO_64) + Load(header[16..])
  {
    var rest := header[16..];
    assert rest[..4] == rest && rest[4..] == [];
    assert Sum32(rest) == Load(rest[..4]) + Sum32(rest[4..]);
  }

  lemma LoadFour(a: byte, b: byte, c: byte, d: byte)
    ensures Load([a, b, c, d]) == a + 0x100 * b + 0x1_0000 * c + 0x100_0000 * d
  {
    assert Load([d]) == d;
    assert [c, d][1..] == [d];
    assert Load([c, d]) == c + 256 * d;
    assert [b, c, d][1..] == [c, d];
    assert Load([b, c, d]) == b + 256 * c + 0x1_0000 * d;
    assert [a, b, c, d][1..] == [b, c, d];
  }

  lemma LoadEight(a: seq<byte>, b: seq<byte>)
    requires |a| == 4
    ensures Load(a + b) == Load(a) + TWO_32 * Load(b)
  {
    LoadAppend(a, b);
    assert Power(4) == TWO_32;
  }

  lemma LowAndHigh()
    ensures Load(LOW_BYTES) == 0xFFFF_0045
    ensures Load(HIGH_BYTES) == 0xFFFF_FFFF_0000_FFBA
    ensures Load(LAST_BYTES) == 1
  {
    LoadFour(0x45, 0, 0xFF, 0xFF);
    LoadFour(0, 0, 0, 0);
    LoadFour(0xBA, 0xFF, 0, 0);
    LoadFour(0xFF, 0xFF, 0xFF, 0xFF);
    LoadFour(1, 0, 0, 0);
    LoadEight([0x45, 0, 0xFF, 0xFF], [0, 0, 0, 0]);
    LoadEight([0xBA, 0xFF, 0, 0], [0xFF, 0xFF, 0xFF, 0xFF]);
    assert [0x45, 0, 0xFF, 0xFF] + [0, 0, 0, 0] == LOW_BYTES;
    assert [0xBA, 0xFF, 0, 0] + [0xFF, 0xFF, 0xFF, 0xFF] == HIGH_BYTES;
  }

  lemma {:induction false} LoadAppend(a: seq<byte>, b: seq<byte>)
    ensures Load(a + b) == Load(a) + Power(|a|) * Load(b)
  {
    if a == [] {
      assert a + b == b;
    } else {
      assert (a + b)[1..] == a[1..] + b;
      LoadAppend(a[1..], b);
      assert 256 * (Power(|a| - 1) * Load(b)) == Power(|a|) * Load(b);
    }
  }
}
