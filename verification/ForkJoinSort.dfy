/** fork_join_sort under every schedule of its tasks.

    A call on a range is a tree: pending, forked into the calls on its two halves, or finished.
    Any pending or joined call may take the next step, so every order in which a pool can run
    the half-range tasks is covered.  That a forked call merges only when both halves are finished
    is what the pool's join guarantees: every run of the sort on the pool is one of these schedules
    (ForkJoinSortTheorems). */
module ForkJoinSort {

  const THRESHOLD := 32768

  /** Calls on ranges of more than THRESHOLD elements are forked at half their length. */
  datatype Call = Pending | Forked(left: Call, right: Call) | Finished

  function Mid(lo: nat, hi: nat): nat
    requires lo <= hi
  {
    lo + (hi - lo) / 2
  }

  ghost predicate Sorted(s: seq<real>) {
    forall i, j :: 0 <= i < j < |s| ==> s[i] <= s[j]
  }

  /** The range [lo, hi) is permuted and everything else stays. */
  ghost predicate Permutes(a: seq<real>, a': seq<real>, lo: nat, hi: nat) {
    && lo <= hi <= |a| == |a'|
    && a'[..lo] == a[..lo] && a'[hi..] == a[hi..]
    && multiset(a'[lo..hi]) == multiset(a[lo..hi])
  }

  /** std::sort */
  ghost predicate Sorts(a: seq<real>, a': seq<real>, lo: nat, hi: nat) {
    Permutes(a, a', lo, hi) && Sorted(a'[lo..hi])
  }

  /** std::inplace_merge, which promises a sorted range only for two sorted halves. */
  ghost predicate Merges(a: seq<real>, a': seq<real>, lo: nat, mid: nat, hi: nat) {
    && Permutes(a, a', lo, hi) && lo <= mid <= hi
    && (Sorted(a[lo..mid]) && Sorted(a[mid..hi]) ==> Sorted(a'[lo..hi]))
  }

  ghost predicate Step(c: Call, lo: nat, hi: nat, a: seq<real>, c': Call, a': seq<real>)
    requires lo <= hi
    decreases c
  {
    match c
    case Pending =>
      if hi - lo > THRESHOLD then c' == Forked(Pending, Pending) && a' == a
      else c' == Finished && Sorts(a, a', lo, hi)
    case Forked(l, r) =>
      var mid := Mid(lo, hi);
      || (c'.Forked? && c'.right == r && Step(l, lo, mid, a, c'.left, a'))
      || (c'.Forked? && c'.left == l && Step(r, mid, hi, a, c'.right, a'))
      || (c' == Finished && l == Finished && r == Finished && Merges(a, a', lo, mid, hi))
    case Finished => false
  }

  // ---- what every step keeps ----

  /** A pending call has touched nothing and a finished one has sorted its range; no call moves elements out of its range. */
  ghost predicate CallOk(c: Call, lo: nat, hi: nat, a: seq<real>, a0: seq<real>)
    decreases c
  {
    && lo <= hi <= |a| == |a0|
    && multiset(a[lo..hi]) == multiset(a0[lo..hi])
    && (c.Pending? ==> a[lo..hi] == a0[lo..hi])
    && (c.Finished? ==> Sorted(a[lo..hi]))
    && (c.Forked? ==> CallOk(c.left, lo, Mid(lo, hi), a, a0) && CallOk(c.right, Mid(lo, hi), hi, a, a0))
  }

  lemma SplitRange(a: seq<real>, lo: nat, mid: nat, hi: nat)
    requires lo <= mid <= hi <= |a|
    ensures multiset(a[lo..hi]) == multiset(a[lo..mid]) + multiset(a[mid..hi])
  {
    assert a[lo..hi] == a[lo..mid] + a[mid..hi];
  }

  /** A call looks only at its own range. */
  lemma {:induction false} CallFrame(c: Call, lo: nat, hi: nat, a: seq<real>, a': seq<real>, a0: seq<real>)
    requires CallOk(c, lo, hi, a, a0) && |a'| == |a| && a'[lo..hi] == a[lo..hi]
    ensures CallOk(c, lo, hi, a', a0)
    decreases c
  {
    if c.Forked? {
      var mid := Mid(lo, hi);
      assert a'[lo..mid] == a'[lo..hi][..mid - lo] == a[lo..hi][..mid - lo] == a[lo..mid];
      assert a'[mid..hi] == a'[lo..hi][mid - lo..] == a[lo..hi][mid - lo..] == a[mid..hi];
      CallFrame(c.left, lo, mid, a, a', a0);
      CallFrame(c.right, mid, hi, a, a', a0);
    }
  }

  /** A permutation of a part of a range is one of the range. */
  lemma WidenRange(a: seq<real>, a': seq<real>, lo: nat, hi: nat, l: nat, h: nat)
    requires l <= lo <= hi <= h <= |a| && Permutes(a, a', lo, hi)
    ensures Permutes(a, a', l, h)
    ensures a'[l..lo] == a[l..lo] && a'[hi..h] == a[hi..h]
  {
    assert a'[..l] == a'[..lo][..l] && a[..l] == a[..lo][..l];
    assert a'[h..] == a'[hi..][h - hi..] && a[h..] == a[hi..][h - hi..];
    assert a'[l..lo] == a'[..lo][l..] && a[l..lo] == a[..lo][l..];
    assert a'[hi..h] == a'[hi..][..h - hi] && a[hi..h] == a[hi..][..h - hi];
    SplitRange(a, l, lo, h);
    SplitRange(a, lo, hi, h);
    SplitRange(a', l, lo, h);
    SplitRange(a', lo, hi, h);
  }

  lemma ForkKept(lo: nat, hi: nat, a: seq<real>, a0: seq<real>)
    requires CallOk(Pending, lo, hi, a, a0)
    ensures CallOk(Forked(Pending, Pending), lo, hi, a, a0)
  {
    var mid := Mid(lo, hi);
    assert a[lo..mid] == a[lo..hi][..mid - lo] == a0[lo..hi][..mid - lo] == a0[lo..mid];
    assert a[mid..hi] == a[lo..hi][mid - lo..] == a0[lo..hi][mid - lo..] == a0[mid..hi];
  }

  /** One half has moved on within its range. */
  lemma LeftKept(l: Call, r: Call, l': Call, lo: nat, hi: nat, a: seq<real>, a': seq<real>, a0: seq<real>)
    requires CallOk(Forked(l, r), lo, hi, a, a0)
    requires var mid := Mid(lo, hi); CallOk(l', lo, mid, a', a0) && Permutes(a, a', lo, mid)
    ensures CallOk(Forked(l', r), lo, hi, a', a0) && Permutes(a, a', lo, hi)
  {
    WidenRange(a, a', lo, Mid(lo, hi), lo, hi);
    CallFrame(r, Mid(lo, hi), hi, a, a', a0);
  }

  lemma RightKept(l: Call, r: Call, r': Call, lo: nat, hi: nat, a: seq<real>, a': seq<real>, a0: seq<real>)
    requires CallOk(Forked(l, r), lo, hi, a, a0)
    requires var mid := Mid(lo, hi); CallOk(r', mid, hi, a', a0) && Permutes(a, a', mid, hi)
    ensures CallOk(Forked(l, r'), lo, hi, a', a0) && Permutes(a, a', lo, hi)
  {
    WidenRange(a, a', Mid(lo, hi), hi, lo, hi);
    CallFrame(l, lo, Mid(lo, hi), a, a', a0);
  }

  lemma {:induction false} StepKept(c: Call, lo: nat, hi: nat, a: seq<real>, c': Call, a': seq<real>, a0: seq<real>)
    requires CallOk(c, lo, hi, a, a0) && Step(c, lo, hi, a, c', a')
    ensures CallOk(c', lo, hi, a', a0) && Permutes(a, a', lo, hi)
    decreases c
  {
    var mid := Mid(lo, hi);
    match c
    case Pending =>
      if hi - lo > THRESHOLD {
        ForkKept(lo, hi, a, a0);
      }
    case Forked(l, r) =>
      if c'.Forked? && c'.right == r && Step(l, lo, mid, a, c'.left, a') {
        StepKept(l, lo, mid, a, c'.left, a', a0);
        LeftKept(l, r, c'.left, lo, hi, a, a', a0);
      } else if c'.Forked? {
        StepKept(r, mid, hi, a, c'.right, a', a0);
        RightKept(l, r, c'.right, lo, hi, a, a', a0);
      }
  }

  // ---- every schedule ends, after the same number of steps ----

  /** The steps of one call: a leaf sorts once; a fork forks, runs both halves and merges. */
  function Cost(n: nat): nat {
    if n > THRESHOLD then 2 + Cost(n / 2) + Cost(n - n / 2) else 1
  }

  function Remaining(c: Call, lo: nat, hi: nat): nat
    requires lo <= hi
    decreases c
  {
    match c
    case Pending => Cost(hi - lo)
    case Forked(l, r) => 1 + Remaining(l, lo, Mid(lo, hi)) + Remaining(r, Mid(lo, hi), hi)
    case Finished => 0
  }

  lemma {:induction false} StepCounts(c: Call, lo: nat, hi: nat, a: seq<real>, c': Call, a': seq<real>)
    requires lo <= hi && Step(c, lo, hi, a, c', a')
    ensures Remaining(c', lo, hi) + 1 == Remaining(c, lo, hi)
    decreases c
  {
    var mid := Mid(lo, hi);
    match c
    case Pending =>
    case Forked(l, r) =>
      if c'.Forked? && c'.right == r && Step(l, lo, mid, a, c'.left, a') {
        StepCounts(l, lo, mid, a, c'.left, a');
      } else if c'.Forked? {
        StepCounts(r, mid, hi, a, c'.right, a');
      }
  }

  // ---- a reference: the one sorted arrangement ----

  function Insert(x: real, s: seq<real>): seq<real> {
    if s == [] || x <= s[0] then [x] + s else [s[0]] + Insert(x, s[1..])
  }

  function SortOf(s: seq<real>): seq<real> {
    if s == [] then [] else Insert(s[0], SortOf(s[1..]))
  }

  lemma {:induction false} InsertSorts(x: real, s: seq<real>)
    requires Sorted(s)
    ensures Sorted(Insert(x, s)) && multiset(Insert(x, s)) == multiset(s) + multiset{x}
  {
    if s != [] && x > s[0] {
      InsertSorts(x, s[1..]);
      assert s == [s[0]] + s[1..];
      var r := Insert(x, s[1..]);
      forall i | 0 <= i < |r| ensures s[0] <= r[i] {
        assert r[i] in multiset(r);
        assert r[i] == x || r[i] in s[1..];
      }
      PrependSorted(s[0], r);
    } else {
      PrependSorted(x, s);
    }
  }

  lemma PrependSorted(x: real, s: seq<real>)
    requires Sorted(s) && forall i :: 0 <= i < |s| ==> x <= s[i]
    ensures Sorted([x] + s)
  {
    var r := [x] + s;
    forall i, j | 0 <= i < j < |r| ensures r[i] <= r[j] {
      assert r[j] == s[j - 1] && (i > 0 ==> r[i] == s[i - 1]);
    }
  }

  lemma {:induction false} SortOfSorts(s: seq<real>)
    ensures Sorted(SortOf(s)) && multiset(SortOf(s)) == multiset(s) && |SortOf(s)| == |s|
  {
    if s != [] {
      SortOfSorts(s[1..]);
      InsertSorts(s[0], SortOf(s[1..]));
      assert s == [s[0]] + s[1..];
    }
    assert |multiset(SortOf(s))| == |multiset(s)|;
  }

  lemma HeadIsLeast(s: seq<real>, t: seq<real>)
    requires Sorted(s) && s != [] && t != [] && multiset(s) == multiset(t)
    ensures s[0] <= t[0]
  {
    assert t[0] in multiset(s);
  }

  lemma TailMultiset(s: seq<real>)
    requires s != []
    ensures multiset(s[1..]) == multiset(s) - multiset{s[0]}
  {
    assert s == [s[0]] + s[1..];
  }

  lemma {:induction false} SortedIsUnique(s: seq<real>, t: seq<real>)
    requires Sorted(s) && Sorted(t) && multiset(s) == multiset(t)
    ensures s == t
  {
    assert |multiset(s)| == |s| && |multiset(t)| == |t|;
    if s != [] {
      HeadIsLeast(s, t);
      HeadIsLeast(t, s);
      TailMultiset(s);
      TailMultiset(t);
      SortedIsUnique(s[1..], t[1..]);
      assert s == [s[0]] + s[1..] && t == [t[0]] + t[1..];
    }
  }

  // ---- runs ----

  ghost predicate Next(c: Call, a: seq<real>, c': Call, a': seq<real>) {
    Step(c, 0, |a|, a, c', a')
  }

  /** A run of fork_join_sort on `a0`: one step after another, in any order. */
  ghost predicate IsRun(calls: seq<Call>, arrays: seq<seq<real>>, a0: seq<real>) {
    && |calls| == |arrays| > 0 && calls[0] == Pending && arrays[0] == a0
    && forall i {:trigger Next(calls[i - 1], arrays[i - 1], calls[i], arrays[i])} ::
         0 < i < |calls| ==> Next(calls[i - 1], arrays[i - 1], calls[i], arrays[i])
  }

  lemma {:induction false} RunKept(calls: seq<Call>, arrays: seq<seq<real>>, a0: seq<real>, i: nat)
    requires IsRun(calls, arrays, a0) && i < |calls|
    ensures CallOk(calls[i], 0, |a0|, arrays[i], a0) && Remaining(calls[i], 0, |a0|) + i == Cost(|a0|)
  {
    if i > 0 {
      RunKept(calls, arrays, a0, i - 1);
      assert Next(calls[i - 1], arrays[i - 1], calls[i], arrays[i]);
      StepKept(calls[i - 1], 0, |a0|, arrays[i - 1], calls[i], arrays[i], a0);
      StepCounts(calls[i - 1], 0, |a0|, arrays[i - 1], calls[i], arrays[i]);
    }
  }

  /** Whatever the schedule, a finished sort has left the sorted arrangement of its input. */
  lemma EveryScheduleSorts(calls: seq<Call>, arrays: seq<seq<real>>, a0: seq<real>, i: nat)
    requires IsRun(calls, arrays, a0) && i < |calls| && calls[i] == Finished
    ensures arrays[i] == SortOf(a0) && Sorted(arrays[i]) && multiset(arrays[i]) == multiset(a0)
    ensures i == Cost(|a0|) && (i == 1 <==> |a0| <= 32768)
  {
    RunKept(calls, arrays, a0, i);
    assert arrays[i][0..|a0|] == arrays[i] && a0[0..|a0|] == a0;
    SortOfSorts(a0);
    SortedIsUnique(arrays[i], SortOf(a0));
  }

  /** No schedule gets stuck before the end, and none runs longer than the cost. */
  lemma EveryScheduleEnds(calls: seq<Call>, arrays: seq<seq<real>>, a0: seq<real>, i: nat)
    requires IsRun(calls, arrays, a0) && i < |calls|
    ensures i <= Cost(|a0|)
    ensures calls[i] != Finished ==> exists c', a' :: Next(calls[i], arrays[i], c', a')
  {
    RunKept(calls, arrays, a0, i);
    if calls[i] != Finished {
      var c', a' := SomeStep(calls[i], 0, |a0|, arrays[i]);
      assert Next(calls[i], arrays[i], c', a');
    }
  }

  lemma {:induction false} SomeStep(c: Call, lo: nat, hi: nat, a: seq<real>) returns (c': Call, a': seq<real>)
    requires lo <= hi <= |a| && c != Finished
    ensures Step(c, lo, hi, a, c', a')
    decreases c
  {
    var mid := Mid(lo, hi);
    match c
    case Pending =>
      if hi - lo > THRESHOLD {
        c', a' := Forked(Pending, Pending), a;
      } else {
        c' := Finished;
        a' := SortRange(a, lo, hi);
      }
    case Forked(l, r) =>
      if l != Finished {
        var l';
        l', a' := SomeStep(l, lo, mid, a);
        c' := Forked(l', r);
      } else if r != Finished {
        var r';
        r', a' := SomeStep(r, mid, hi, a);
        c' := Forked(l, r');
      } else {
        c' := Finished;
        a' := SortRange(a, lo, hi);
      }
  }

  lemma SortRange(a: seq<real>, lo: nat, hi: nat) returns (a': seq<real>)
    requires lo <= hi <= |a|
    ensures Sorts(a, a', lo, hi)
  {
    SortOfSorts(a[lo..hi]);
    a' := a[..lo] + SortOf(a[lo..hi]) + a[hi..];
    assert a'[lo..hi] == SortOf(a[lo..hi]);
  }
}
