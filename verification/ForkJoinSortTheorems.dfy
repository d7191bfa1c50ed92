/** fork_join_sort on the pool sorts its input and never gets stuck. */
module ForkJoinSortTheorems {
  import opened ForkJoinPool
  import opened ForkJoinInvariants
  import opened ForkJoinSteps
  import opened ForkJoinTheorems
  import opened OnPool = ForkJoinSortOnPool
  import Sort = ForkJoinSort

  // ---- runs on the pool are schedules of the sort ----

  lemma KidRange(p: Path, b: nat, n: nat)
    ensures var r := RangeOf(p, n);
      RangeOf(Kid(p, b), n) == if b > 0 then Range(Sort.Mid(r.lo, r.hi), r.hi) else Range(r.lo, Sort.Mid(r.lo, r.hi))
  {
    assert Kid(p, b)[..|p|] == p;
  }

  /** The tree of calls below a path. */
  function Tree(acts: map<Path, Act>, n: nat, p: Path): Sort.Call
    decreases RangeOf(p, n).hi - RangeOf(p, n).lo
  {
    KidRange(p, 0, n);
    KidRange(p, 1, n);
    if p !in acts then Sort.Pending
    else if acts[p].stage.Done? then Sort.Finished
    else if acts[p].forked && IsLong(p, n) then Sort.Forked(Tree(acts, n, Kid(p, 0)), Tree(acts, n, Kid(p, 1)))
    else Sort.Pending
  }

  /** What the tree shows of a call. */
  function Shows(acts: map<Path, Act>, p: Path): (bool, bool) {
    if p in acts then (acts[p].stage.Done?, acts[p].forked) else (false, false)
  }

  /** Nothing changes below a path. */
  ghost predicate SameBelow(acts: map<Path, Act>, acts': map<Path, Act>, p: Path) {
    forall q {:trigger Shows(acts, q)} :: p <= q ==> Shows(acts', q) == Shows(acts, q)
  }

  lemma SameBelowKid(acts: map<Path, Act>, acts': map<Path, Act>, p: Path, b: nat)
    requires SameBelow(acts, acts', p)
    ensures SameBelow(acts, acts', Kid(p, b))
  {
    forall q | Kid(p, b) <= q ensures Shows(acts', q) == Shows(acts, q) {
      assert p <= Kid(p, b) <= q;
    }
  }

  lemma {:induction false} TreeSame(acts: map<Path, Act>, acts': map<Path, Act>, n: nat, p: Path)
    requires SameBelow(acts, acts', p)
    ensures Tree(acts', n, p) == Tree(acts, n, p)
    decreases RangeOf(p, n).hi - RangeOf(p, n).lo
  {
    assert Shows(acts', p) == Shows(acts, p);
    if IsLong(p, n) {
      KidRange(p, 0, n);
      KidRange(p, 1, n);
      SameBelowKid(acts, acts', p, 0);
      SameBelowKid(acts, acts', p, 1);
      TreeSame(acts, acts', n, Kid(p, 0));
      TreeSame(acts, acts', n, Kid(p, 1));
    }
  }

  /** The tree makes the step that its call at `p` makes. */
  ghost predicate TreeSteps(j: Program, j': Program, p: Path) {
    var n, r := |j.a|, RangeOf(p, |j.a|);
    Sort.Step(Tree(j.acts, n, p), r.lo, r.hi, j.a, Tree(j'.acts, n, p), j'.a)
  }

  /** A step of a half is a step of the call above it. */
  lemma LiftOnce(j: Program, j': Program, p: Path, b: nat)
    requires b < 2 && p in j.acts && !j.acts[p].stage.Done? && j.acts[p].forked && IsLong(p, |j.a|)
    requires Shows(j'.acts, p) == Shows(j.acts, p) && SameBelow(j.acts, j'.acts, Kid(p, 1 - b))
    requires TreeSteps(j, j', Kid(p, b))
    ensures TreeSteps(j, j', p)
  {
    KidRange(p, 0, |j.a|);
    KidRange(p, 1, |j.a|);
    TreeSame(j.acts, j'.acts, |j.a|, Kid(p, 1 - b));
  }

  /** A step of a call that is not done is a step of the calls above it, which are not done either. */
  lemma {:induction false} Lift(j: Program, j': Program, p: Path)
    requires ActsOk(j) && p in j.acts && !j.acts[p].stage.Done? && TreeSteps(j, j', p)
    requires forall q {:trigger Shows(j.acts, q)} :: !(p <= q) ==> Shows(j'.acts, q) == Shows(j.acts, q)
    ensures TreeSteps(j, j', [])
    decreases |p|
  {
    if p != [] {
      var q := p[..|p| - 1];
      var b: nat := if p[|p| - 1] then 1 else 0;
      assert p == Kid(q, b) && !(p <= q) && Shows(j'.acts, q) == Shows(j.acts, q);
      assert ActOk(j, p) && ActOk(j, q) && KidOk(j, q, b);
      forall x | Kid(q, 1 - b) <= x ensures Shows(j'.acts, x) == Shows(j.acts, x) {
        assert x[|q|] != p[|q|];
      }
      LiftOnce(j, j', q, b);
      Lift(j, j', q);
    }
  }

  lemma ForkRefines(j: Program, t: Tid, p: Path, j': Program)
    requires ActsOk(j) && ForkStep(j, t, p, j')
    ensures TreeSteps(j, j', [])
  {
    assert ActOk(j, p);
    FreshKid(j, p, 0);
    FreshKid(j, p, 1);
    Lift(j, j', p);
  }

  lemma LeafRefines(j: Program, t: Tid, p: Path, j': Program)
    requires ActsOk(j) && LeafStep(j, t, p, j')
    ensures TreeSteps(j, j', [])
  {
    assert ActOk(j, p);
    Lift(j, j', p);
  }

  /** That both halves are finished when a call merges is the guarantee of its join. */
  lemma MergeRefines(j: Program, t: Tid, p: Path, j': Program)
    requires ActsOk(j) && MergeStep(j, t, p, j')
    ensures Tree(j.acts, |j.a|, p) == Sort.Forked(Sort.Finished, Sort.Finished) && TreeSteps(j, j', [])
  {
    assert ActOk(j, p);
    HalvesDone(j, p, 0);
    HalvesDone(j, p, 1);
    Lift(j, j', p);
  }

  /** A move is one step of the sort, or the sort does not see it. */
  lemma MoveRefines(j: Program, m: Move, j': Program)
    requires Good(j) && Moves(j, m, j')
    ensures |j'.a| == |j.a|
    ensures if m.MFork? || m.MLeaf? || m.MMerge? then TreeSteps(j, j', [])
            else j'.a == j.a && Tree(j'.acts, |j.a|, []) == Tree(j.acts, |j.a|, [])
  {
    match m
    case MFork(t, p) => ForkRefines(j, t, p, j');
    case MLeaf(t, p) => LeafRefines(j, t, p, j');
    case MMerge(t, p) => MergeRefines(j, t, p, j');
    case MSubmit(t, p, a) =>
      FreshKid(j, p, |j.acts[p].tasks|);
      TreeSame(j.acts, j'.acts, |j.a|, []);
    case MJoin(t, p) => TreeSame(j.acts, j'.acts, |j.a|, []);
    case MReturn(t, p) => TreeSame(j.acts, j'.acts, |j.a|, []);
    case MPool(a) =>
    case MFinish(t, p) =>
  }

  /** The steps of the sort that lead from `a0` to the tree and the array of `j`. */
  ghost predicate IsSchedule(j: Program, a0: seq<real>, calls: seq<Sort.Call>, arrays: seq<seq<real>>) {
    && Sort.IsRun(calls, arrays, a0) && |j.a| == |a0|
    && calls[|calls| - 1] == Tree(j.acts, |j.a|, []) && arrays[|arrays| - 1] == j.a
  }

  lemma StepAdded(calls: seq<Sort.Call>, arrays: seq<seq<real>>, c: Sort.Call, a: seq<real>, a0: seq<real>)
    requires Sort.IsRun(calls, arrays, a0)
    requires Sort.Next(calls[|calls| - 1], arrays[|arrays| - 1], c, a)
    ensures Sort.IsRun(calls + [c], arrays + [a], a0)
  {
    var calls', arrays' := calls + [c], arrays + [a];
    forall i | 0 < i < |calls'| ensures Sort.Next(calls'[i - 1], arrays'[i - 1], calls'[i], arrays'[i]) {
      if i < |calls| {
        assert Sort.Next(calls[i - 1], arrays[i - 1], calls[i], arrays[i]);
      }
    }
  }

  lemma NextRefines(j: Program, j': Program, a0: seq<real>, calls: seq<Sort.Call>, arrays: seq<seq<real>>)
      returns (calls': seq<Sort.Call>, arrays': seq<seq<real>>)
    requires Good(j) && OnPool.Next(j, j') && IsSchedule(j, a0, calls, arrays)
    ensures IsSchedule(j', a0, calls', arrays')
  {
    var m :| Moves(j, m, j');
    MoveRefines(j, m, j');
    calls', arrays' := calls, arrays;
    if m.MFork? || m.MLeaf? || m.MMerge? {
      var c := Tree(j'.acts, |j'.a|, []);
      StepAdded(calls, arrays, c, j'.a, a0);
      calls', arrays' := calls + [c], arrays + [j'.a];
    }
  }

  /** Every run of the program on the pool is a schedule of the sort. */
  lemma {:induction false} RunRefines(run: seq<Program>, i: nat) returns (calls: seq<Sort.Call>, arrays: seq<seq<real>>)
    requires OnPool.IsRun(run) && i < |run|
    ensures IsSchedule(run[i], run[0].a, calls, arrays)
  {
    if i == 0 {
      calls, arrays := [Sort.Pending], [run[0].a];
    } else {
      calls, arrays := RunRefines(run, i - 1);
      RunGood(run, i - 1);
      assert OnPool.Next(run[i - 1], run[i]);
      calls, arrays := NextRefines(run[i - 1], run[i], run[0].a, calls, arrays);
    }
  }

  /** However the threads of the pool take turns, borrow and steal, when the first call returns the
      array is the one sorted arrangement of the input. */
  lemma PoolSorts(run: seq<Program>, i: nat)
    requires OnPool.IsRun(run) && i < |run| && [] in run[i].acts && run[i].acts[[]].stage.Done?
    ensures run[i].a == Sort.SortOf(run[0].a) && Sort.Sorted(run[i].a) && multiset(run[i].a) == multiset(run[0].a)
  {
    var calls, arrays := RunRefines(run, i);
    Sort.EveryScheduleSorts(calls, arrays, run[0].a, |calls| - 1);
  }

  // ---- the program never gets stuck ----

  /** A move other than going to sleep, waking up, or leaving the pool's loop for good. */
  predicate Useful(m: Move) {
    m.MPool? ==> m.a.ATake?
  }

  ghost predicate CanMove(j: Program) {
    exists m, j' :: Useful(m) && Moves(j, m, j')
  }

  /** Some thread can submit: notify_one wakes a sleeping thread if there is one. */
  lemma SubmitsSomehow(s: State, t: Tid, g: Group) returns (a: Action, s': State)
    requires MaySubmit(s, t, g)
    ensures Submits(a, t, g) && Step(s, a, s')
  {
    if Loaded(s) {
      a, s' := ASubmitInline(t, g), SubmitInline(s, t, g);
    } else if forall w :: w in s.threads ==> !s.threads[w].asleep {
      a, s' := ASubmitQueued(t, g, {}), SubmitQueued(s, t, g, {});
    } else {
      var w :| w in s.threads && s.threads[w].asleep;
      a, s' := ASubmitQueued(t, g, {w}), SubmitQueued(s, t, g, {w});
    }
  }

  lemma CallBegins(j: Program, t: Tid, p: Path)
    requires Runs(j, t, p) && j.acts[p].stage.Calls? && !j.acts[p].forked
    ensures CanMove(j)
  {
    var x, r := j.acts[p], RangeOf(p, |j.a|);
    if IsLong(p, |j.a|) {
      var j' := j.(s := Fork(j.s, t), acts := j.acts[p := x.(forked := true, group := j.s.clock)]);
      assert Moves(j, MFork(t, p), j') && Useful(MFork(t, p));
    } else {
      var a' := Sort.SortRange(j.a, r.lo, r.hi);
      var j' := j.(a := a', acts := j.acts[p := x.(stage := Done)]);
      assert Moves(j, MLeaf(t, p), j') && Useful(MLeaf(t, p));
    }
  }

  lemma CallForksOn(j: Program, t: Tid, p: Path)
    requires Good(j) && Runs(j, t, p) && j.acts[p].stage.Calls? && j.acts[p].forked
    ensures CanMove(j)
  {
    var x := j.acts[p];
    assert ActOk(j, p);
    if |x.tasks| == 2 {
      var j' := j.(s := BeginJoin(j.s, t, x.group), acts := j.acts[p := x.(stage := Joining)]);
      assert Moves(j, MJoin(t, p), j') && Useful(MJoin(t, p));
    } else {
      RootIsOpen(j, p);
      var a, s' := SubmitsSomehow(j.s, t, x.group);
      var j' := Submitted(j, p).(s := s');
      assert Moves(j, MSubmit(t, p, a), j') && Useful(MSubmit(t, p, a));
    }
  }

  lemma CallEnds(j: Program, t: Tid, p: Path)
    requires Runs(j, t, p) && (j.acts[p].stage.Joined? || (j.acts[p].stage.Done? && CanFinish(j.s, t)))
    ensures CanMove(j)
  {
    var x, r := j.acts[p], RangeOf(p, |j.a|);
    if x.stage.Done? {
      var j' := j.(s := Finish(j.s, t));
      assert Moves(j, MFinish(t, p), j') && Useful(MFinish(t, p));
    } else {
      var a' := Sort.SortRange(j.a, r.lo, r.hi);
      var j' := j.(a := a', acts := j.acts[p := x.(stage := Done)]);
      assert Moves(j, MMerge(t, p), j') && Useful(MMerge(t, p));
    }
  }

  /** Code that has control and has not returned can go on. */
  lemma CodeMoves(j: Program, t: Tid, p: Path)
    requires Good(j) && Runs(j, t, p) && (j.acts[p].stage.Done? ==> CanFinish(j.s, t))
    ensures CanMove(j)
  {
    RunsOnTop(j, t, p);
    if j.acts[p].stage.Done? || j.acts[p].stage.Joined? {
      CallEnds(j, t, p);
    } else if !j.acts[p].forked {
      CallBegins(j, t, p);
    } else {
      CallForksOn(j, t, p);
    }
  }

  /** While any call is not done, the first one is not, so the pool has not been stopped. */
  lemma {:induction false} RootIsOpen(j: Program, p: Path)
    requires ActsOk(j) && p in j.acts && !j.acts[p].stage.Done?
    ensures !j.acts[[]].stage.Done?
    decreases |p|
  {
    if p != [] {
      var q := p[..|p| - 1];
      var b: nat := if p[|p| - 1] then 1 else 0;
      assert p == Kid(q, b);
      assert ActOk(j, p) && ActOk(j, q) && KidOk(j, q, b);
      RootIsOpen(j, q);
    }
  }

  /** A join that can return does. */
  lemma JoinMoves(j: Program, t: Tid)
    requires Good(j) && CanReturn(j.s, t)
    ensures CanMove(j)
  {
    var st := j.s.threads[t].stack;
    var k := |st| - 2;
    assert StackOk(j.s, t) && FrameOk(j.s, t, st, k + 1);
    FrameCode(j, t, k);
    var p := PathAt(j.paths, st[k]);
    var j' := j.(s := Return(j.s, t), acts := j.acts[p := j.acts[p].(stage := Joined)]);
    assert Moves(j, MReturn(t, p), j') && Useful(MReturn(t, p));
  }

  /** With no task queued or running the main thread has control, or its join can return. */
  lemma MainMoves(j: Program)
    requires Good(j) && j.s.live == map[] && !j.acts[[]].stage.Done?
    ensures CanMove(j)
  {
    var t, st := j.main, j.s.threads[j.main].stack;
    var k := |st| - 1;
    assert StackOk(j.s, t) && SleeperOk(j.s, t) && FrameOk(j.s, t, st, k);
    forall i | 0 < i < |st| ensures st[i].Join? {
      assert FrameOk(j.s, t, st, i);
    }
    assert k > 1 ==> st[k - 1].Join?;
    if st[k].Join? {
      assert CountOk(j.s, st[k].group);
      assert TasksOf(j.s.live, st[k].group) == {};
      JoinMoves(j, t);
    } else {
      FrameCode(j, t, 0);
      CodeMoves(j, t, []);
    }
  }

  /** Until the first call has returned some thread can go on with the sort or take a queued task,
      however many threads the pool has and whatever they wait for. */
  lemma NeverStuck(run: seq<Program>, i: nat)
    requires OnPool.IsRun(run) && i < |run| && [] in run[i].acts && !run[i].acts[[]].stage.Done?
    ensures CanMove(run[i])
  {
    var j := run[i];
    RunGood(run, i);
    if j.s.live == map[] {
      MainMoves(j);
    } else {
      var t := SomeProductive(j.s);
      ProductiveMoves(j, t);
    }
  }

  lemma ProductiveMoves(j: Program, t: Tid)
    requires Good(j) && j.s.live != map[] && Productive(j.s, t)
    ensures CanMove(j)
  {
    if CanTake(j.s, t) {
      assert Moves(j, MPool(ATake(t)), j.(s := Take(j.s, t))) && Useful(MPool(ATake(t)));
    } else if CanReturn(j.s, t) {
      JoinMoves(j, t);
    } else if CanFinish(j.s, t) {
      FrameCode(j, t, |j.s.threads[t].stack| - 1);
      CodeMoves(j, t, PathAt(j.paths, Top(j.s.threads[t])));
    } else {
      var x :| x in j.s.live;
      LiveMeansInUse(j.s, x);
    }
  }

  // ---- every run ends ----

  /** The moves that a call has yet to make, and those of the halves it has yet to submit: each is
      submitted, taken and finished once. */
  function Own(acts: map<Path, Act>, p: Path): nat {
    if p !in acts || !acts[p].forked then 10
    else
      match acts[p].stage
      case Calls => if acts[p].tasks == [] then 9 else if |acts[p].tasks| == 1 then 6 else 3
      case Joining => 2
      case Joined => 1
      case Done => 0
  }

  function Left(acts: map<Path, Act>, n: nat, p: Path): nat
    decreases RangeOf(p, n).hi - RangeOf(p, n).lo
  {
    KidRange(p, 0, n);
    KidRange(p, 1, n);
    if p in acts && acts[p].stage.Done? then 0
    else if IsLong(p, n) then Own(acts, p) + Left(acts, n, Kid(p, 0)) + Left(acts, n, Kid(p, 1))
    else 1
  }

  /** What `Left` looks at. */
  function Costs(acts: map<Path, Act>, p: Path): (bool, nat) {
    (p in acts && acts[p].stage.Done?, Own(acts, p))
  }

  ghost predicate CostsSame(acts: map<Path, Act>, acts': map<Path, Act>, p: Path) {
    forall q {:trigger Costs(acts, q)} :: p <= q ==> Costs(acts', q) == Costs(acts, q)
  }

  lemma CostsSameKid(acts: map<Path, Act>, acts': map<Path, Act>, p: Path, b: nat)
    requires CostsSame(acts, acts', p)
    ensures CostsSame(acts, acts', Kid(p, b))
  {
    forall q | Kid(p, b) <= q ensures Costs(acts', q) == Costs(acts, q) {
      assert p <= Kid(p, b) <= q;
    }
  }

  lemma {:induction false} LeftSame(acts: map<Path, Act>, acts': map<Path, Act>, n: nat, p: Path)
    requires CostsSame(acts, acts', p)
    ensures Left(acts', n, p) == Left(acts, n, p)
    decreases RangeOf(p, n).hi - RangeOf(p, n).lo
  {
    assert Costs(acts', p) == Costs(acts, p);
    if IsLong(p, n) {
      KidRange(p, 0, n);
      KidRange(p, 1, n);
      CostsSameKid(acts, acts', p, 0);
      CostsSameKid(acts, acts', p, 1);
      LeftSame(acts, acts', n, Kid(p, 0));
      LeftSame(acts, acts', n, Kid(p, 1));
    }
  }

  lemma LeftLiftOnce(acts: map<Path, Act>, acts': map<Path, Act>, n: nat, p: Path, b: nat, d: nat)
    requires b < 2 && !Costs(acts, p).0 && IsLong(p, n) && Costs(acts', p) == Costs(acts, p)
    requires CostsSame(acts, acts', Kid(p, 1 - b)) && Left(acts', n, Kid(p, b)) + d == Left(acts, n, Kid(p, b))
    ensures Left(acts', n, p) + d == Left(acts, n, p)
  {
    LeftSame(acts, acts', n, Kid(p, 1 - b));
  }

  /** What a call has left goes down, and so does what is left of the whole sort. */
  lemma {:induction false} LeftLift(j: Program, acts': map<Path, Act>, p: Path, d: nat)
    requires ActsOk(j) && p in j.acts && !j.acts[p].stage.Done?
    requires Left(acts', |j.a|, p) + d == Left(j.acts, |j.a|, p)
    requires forall q {:trigger Costs(j.acts, q)} :: !(p <= q) ==> Costs(acts', q) == Costs(j.acts, q)
    ensures Left(acts', |j.a|, []) + d == Left(j.acts, |j.a|, [])
    decreases |p|
  {
    if p != [] {
      var q := p[..|p| - 1];
      var b: nat := if p[|p| - 1] then 1 else 0;
      assert p == Kid(q, b) && !(p <= q) && Costs(acts', q) == Costs(j.acts, q);
      assert ActOk(j, p) && ActOk(j, q) && KidOk(j, q, b);
      forall x | Kid(q, 1 - b) <= x ensures Costs(acts', x) == Costs(j.acts, x) {
        assert x[|q|] != p[|q|];
      }
      LeftLiftOnce(j.acts, acts', |j.a|, q, b, d);
      LeftLift(j, acts', q, d);
    }
  }

  /** A call's own step, its halves apart. */
  lemma OwnStep(j: Program, acts': map<Path, Act>, p: Path, d: nat)
    requires ActsOk(j) && p in j.acts && !j.acts[p].stage.Done? && IsLong(p, |j.a|)
    requires p in acts' && !acts'[p].stage.Done? && Own(acts', p) + d == Own(j.acts, p)
    requires forall q {:trigger Costs(j.acts, q)} :: q != p ==> Costs(acts', q) == Costs(j.acts, q)
    ensures Left(acts', |j.a|, []) + d == Left(j.acts, |j.a|, [])
  {
    LeftSame(j.acts, acts', |j.a|, Kid(p, 0));
    LeftSame(j.acts, acts', |j.a|, Kid(p, 1));
    LeftLift(j, acts', p, d);
  }

  /** The moves left: each queued task is to be taken, each live one to be finished. */
  ghost function Work(j: Program): nat {
    Left(j.acts, |j.a|, []) + |j.s.queue| + |j.s.live|
  }

  lemma ForkCosts(j: Program, t: Tid, p: Path, j': Program)
    requires ActsOk(j) && ForkStep(j, t, p, j')
    ensures Work(j') < Work(j)
  {
    assert ActOk(j, p);
    OwnStep(j, j'.acts, p, 1);
  }

  lemma SubmitLeft(j: Program, p: Path, j': Program)
    requires ActsOk(j) && p in j.acts && j.acts[p].stage.Calls? && j.acts[p].forked && |j.acts[p].tasks| < 2
    requires j' == Submitted(j, p).(s := j'.s)
    ensures Left(j'.acts, |j.a|, []) + 3 == Left(j.acts, |j.a|, [])
  {
    assert ActOk(j, p) && Kid(p, |j.acts[p].tasks|) != p;
    FreshKid(j, p, |j.acts[p].tasks|);
    OwnStep(j, j'.acts, p, 3);
  }

  lemma SubmitCosts(j: Program, t: Tid, p: Path, a: Action, j': Program)
    requires Inv(j.s) && ActsOk(j) && SubmitStep(j, t, p, a, j')
    ensures Work(j') < Work(j)
  {
    SubmitLeft(j, p, j');
    IsSubmission(j.s, t, j.acts[p].group, a, j'.s);
    LiveAdded(j.s.live, j.s.clock, j.acts[p].group);
    assert |j'.s.queue| <= |j.s.queue| + 1;
  }

  lemma LiveAdded(live: map<Task, Group>, x: Task, g: Group)
    requires x !in live
    ensures |live[x := g]| == |live| + 1
  {
    assert live[x := g].Keys == live.Keys + {x};
    assert |live[x := g].Keys| == |live[x := g]| && |live.Keys| == |live|;
  }

  lemma JoinCosts(j: Program, t: Tid, p: Path, j': Program)
    requires ActsOk(j) && JoinStep(j, t, p, j')
    ensures Work(j') < Work(j)
  {
    assert ActOk(j, p);
    OwnStep(j, j'.acts, p, 1);
  }

  lemma ReturnCosts(j: Program, t: Tid, p: Path, j': Program)
    requires ActsOk(j) && ReturnStep(j, t, p, j')
    ensures Work(j') < Work(j)
  {
    assert ActOk(j, p);
    OwnStep(j, j'.acts, p, 1);
  }

  lemma LeafCosts(j: Program, t: Tid, p: Path, j': Program)
    requires ActsOk(j) && LeafStep(j, t, p, j')
    ensures Work(j') < Work(j)
  {
    LeftLift(j, j'.acts, p, 1);
  }

  lemma MergeCosts(j: Program, t: Tid, p: Path, j': Program)
    requires ActsOk(j) && MergeStep(j, t, p, j')
    ensures Work(j') < Work(j)
  {
    assert ActOk(j, p);
    HalvesDone(j, p, 0);
    HalvesDone(j, p, 1);
    LeftLift(j, j'.acts, p, 1);
  }

  lemma FinishCosts(j: Program, t: Tid, p: Path, j': Program)
    requires Inv(j.s) && FinishStep(j, t, p, j')
    ensures Work(j') < Work(j)
  {
    var x := Top(j.s.threads[t]).task;
    RunsOn(j.s, t);
    assert j.s.live == j'.s.live[x := j.s.live[x]];
    LiveAdded(j'.s.live, x, j.s.live[x]);
  }

  lemma MoveCosts(j: Program, m: Move, j': Program)
    requires Good(j) && Moves(j, m, j')
    ensures Work(j') <= Work(j) && (Useful(m) ==> Work(j') < Work(j))
  {
    match m
    case MPool(a) =>
    case MFork(t, p) => ForkCosts(j, t, p, j');
    case MSubmit(t, p, a) => SubmitCosts(j, t, p, a, j');
    case MJoin(t, p) => JoinCosts(j, t, p, j');
    case MReturn(t, p) => ReturnCosts(j, t, p, j');
    case MLeaf(t, p) => LeafCosts(j, t, p, j');
    case MMerge(t, p) => MergeCosts(j, t, p, j');
    case MFinish(t, p) => FinishCosts(j, t, p, j');
  }

  ghost predicate Progress(j: Program, j': Program) {
    exists m :: Useful(m) && Moves(j, m, j')
  }

  /** How many steps before the i-th state were useful. */
  ghost function UsefulCount(run: seq<Program>, i: nat): nat
    requires i < |run|
  {
    if i == 0 then 0 else UsefulCount(run, i - 1) + if Progress(run[i - 1], run[i]) then 1 else 0
  }

  lemma NextCosts(j: Program, j': Program)
    requires Good(j) && OnPool.Next(j, j')
    ensures Work(j') + (if Progress(j, j') then 1 else 0) <= Work(j)
  {
    if Progress(j, j') {
      var m :| Useful(m) && Moves(j, m, j');
      MoveCosts(j, m, j');
    } else {
      var m :| Moves(j, m, j');
      MoveCosts(j, m, j');
    }
  }

  /** Ten moves for each call that forks (it creates a group, submits, joins, returns from the join and
      merges; both its tasks are taken and finished), and one for each that sorts. */
  function FullCost(n: nat): nat {
    if n > Sort.THRESHOLD then 10 + FullCost(n / 2) + FullCost(n - n / 2) else 1
  }

  /** No call at or below the path has forked or returned. */
  ghost predicate Untouched(acts: map<Path, Act>, p: Path) {
    forall q {:trigger Costs(acts, q)} :: p <= q ==> Costs(acts, q) == (false, 10)
  }

  lemma UntouchedKid(acts: map<Path, Act>, p: Path, b: nat)
    requires Untouched(acts, p)
    ensures Untouched(acts, Kid(p, b))
  {
    forall q | Kid(p, b) <= q ensures Costs(acts, q) == (false, 10) {
      assert p <= Kid(p, b) <= q;
    }
  }

  function Size(p: Path, n: nat): nat {
    RangeOf(p, n).hi - RangeOf(p, n).lo
  }

  lemma KidSize(p: Path, n: nat)
    ensures Size(Kid(p, 0), n) == Size(p, n) / 2 && Size(Kid(p, 1), n) == Size(p, n) - Size(p, n) / 2
  {
    KidRange(p, 0, n);
    KidRange(p, 1, n);
  }

  lemma LeftOfOpen(acts: map<Path, Act>, n: nat, p: Path)
    requires IsLong(p, n) && !Costs(acts, p).0
    ensures Left(acts, n, p) == Costs(acts, p).1 + Left(acts, n, Kid(p, 0)) + Left(acts, n, Kid(p, 1))
  {
  }

  lemma {:induction false} LeftIsFull(acts: map<Path, Act>, n: nat, p: Path)
    requires Untouched(acts, p)
    ensures Left(acts, n, p) == FullCost(Size(p, n))
    decreases Size(p, n)
  {
    assert Costs(acts, p) == (false, 10);
    if IsLong(p, n) {
      KidSize(p, n);
      LeftOfOpen(acts, n, p);
      UntouchedKid(acts, p, 0);
      UntouchedKid(acts, p, 1);
      LeftIsFull(acts, n, Kid(p, 0));
      LeftIsFull(acts, n, Kid(p, 1));
    }
  }

  lemma StartCosts(j: Program)
    requires OnPool.Init(j)
    ensures Work(j) == FullCost(|j.a|)
  {
    LeftIsFull(j.acts, |j.a|, []);
  }

  /** Going to sleep, waking up and leaving the pool apart, the length of a run is bounded by the size of
      its array; since it is never stuck before, the sort returns. */
  lemma {:induction false} EveryRunEnds(run: seq<Program>, i: nat)
    requires OnPool.IsRun(run) && i < |run|
    ensures UsefulCount(run, i) + Work(run[i]) <= FullCost(|run[0].a|)
  {
    if i == 0 {
      StartCosts(run[0]);
    } else {
      EveryRunEnds(run, i - 1);
      RunGood(run, i - 1);
      assert OnPool.Next(run[i - 1], run[i]);
      NextCosts(run[i - 1], run[i]);
    }
  }
}
